/** The colour class of the round clock: red for the last five seconds, yellow
    up to ten seconds, purple otherwise. */
module TimerColor {

  const Red: string := "text-red-500"
  const Yellow: string := "text-yellow-500"
  const Purple: string := "text-purple-500"

  function GetTimerColor(timeRemaining: int): (color: string)
    ensures color == Red || color == Yellow || color == Purple
    ensures color == Red <==> timeRemaining <= 5
    ensures color == Yellow <==> 5 < timeRemaining <= 10
    ensures color == Purple <==> timeRemaining > 10
  {
    if timeRemaining <= 5 then Red
    else if timeRemaining <= 10 then Yellow
    else Purple
  }

  /** How urgent a colour looks: purple 0, yellow 1, red 2. */
  function Urgency(color: string): nat
  {
    if color == Red then 2 else if color == Yellow then 1 else 0
  }

  /** Less time left never shows a less urgent colour. */
  lemma UrgencyMonotone(t1: int, t2: int)
    requires t1 <= t2
    ensures Urgency(GetTimerColor(t1)) >= Urgency(GetTimerColor(t2))
  {
  }
}
