/** Small types shared by every model in this project. */
module Common {

  datatype Option<+T> = None | Some(value: T)

  datatype Result<+T, +E> = Ok(value: T) | Err(error: E)

  /** The characters JavaScript's `trim` removes: white space and line terminators. */
  predicate IsSpace(c: char) {
    || '\U{9}' <= c <= '\U{D}'
    || c == ' ' || c == '\U{A0}' || c == '\U{1680}'
    || '\U{2000}' <= c <= '\U{200A}'
    || c == '\U{2028}' || c == '\U{2029}' || c == '\U{202F}' || c == '\U{205F}'
    || c == '\U{3000}' || c == '\U{FEFF}'
  }

  /** `value.trim().length === 0`. */
  predicate Blank(s: string) {
    forall i | 0 <= i < |s| :: IsSpace(s[i])
  }

  /** How often a value occurs in a log. */
  function Count<T(==)>(log: seq<T>, x: T): (n: nat) {
    if log == [] then 0
    else Count(log[..|log| - 1], x) + (if log[|log| - 1] == x then 1 else 0)
  }

  lemma CountAppend<T>(log: seq<T>, last: T, x: T)
    ensures Count(log + [last], x) == Count(log, x) + (if last == x then 1 else 0)
  {
    assert (log + [last])[..|log|] == log;
  }
}
