/** The keyboard rule: how a key press or release changes the paddle's
    direction. Only the two arrow keys matter; the last arrow event wins. */
module Input {

  datatype Key = ArrowLeft | ArrowRight | OtherKey

  datatype KeyEvent = KeyDown(key: Key) | KeyUp(key: Key)

  predicate IsArrow(k: Key) {
    k == ArrowLeft || k == ArrowRight
  }

  /** The paddle's dx after event e, given its dx before and its speed. */
  function KeyEffect(dx: int, speed: int, e: KeyEvent): (r: int)
    ensures e == KeyDown(ArrowLeft) ==> r == -speed
    ensures e == KeyDown(ArrowRight) ==> r == speed
    ensures e.KeyUp? && IsArrow(e.key) ==> r == 0
    ensures !IsArrow(e.key) ==> r == dx
  {
    match e
    case KeyDown(ArrowLeft) => -speed
    case KeyDown(ArrowRight) => speed
    case KeyUp(k) => if IsArrow(k) then 0 else dx
    case KeyDown(OtherKey) => dx
  }

  /** dx stays one of -speed, 0 and speed, whatever the events. */
  lemma KeyEffectStaysInRange(dx: int, speed: int, e: KeyEvent)
    requires dx == -speed || dx == 0 || dx == speed
    ensures var r := KeyEffect(dx, speed, e); r == -speed || r == 0 || r == speed
  {
  }

  /** An arrow event sets dx regardless of every event before it. */
  lemma LastArrowEventWins(dx: int, speed: int, earlier: KeyEvent, e: KeyEvent)
    requires IsArrow(e.key)
    ensures KeyEffect(KeyEffect(dx, speed, earlier), speed, e) == KeyEffect(dx, speed, e)
  {
  }
}
