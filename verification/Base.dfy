/** Values shared by every part of the model. */
module Base {

  datatype Option<+T> = None | Some(value: T)

  /** A computation that either yields a value or refuses with a reason. */
  datatype Result<+T, +E> = Ok(value: T) | Err(error: E) {
    predicate IsFailure() { Err? }

    function PropagateFailure<U>(): Result<U, E>
      requires Err?
    {
      Err(error)
    }

    function Extract(): T
      requires Ok?
    {
      value
    }
  }

  type u32 = n: int | 0 <= n < 0x1_0000_0000

  const U32_MAX: nat := 0xFFFF_FFFF

  /** The Unicode White_Space characters, which `trim` removes. */
  predicate IsSpace(c: char) {
    var n := c as int;
    || 0x09 <= n <= 0x0D || n == 0x20 || n == 0x85 || n == 0xA0 || n == 0x1680
    || 0x2000 <= n <= 0x200A || n == 0x2028 || n == 0x2029 || n == 0x202F
    || n == 0x205F || n == 0x3000
  }

  /** Whether nothing is left of `s` once it is trimmed. */
  predicate Blank(s: string) {
    forall c | c in s :: IsSpace(c)
  }

  /** The bytes of one character in UTF-8. */
  function CharBytes(c: char): (n: nat)
    ensures 1 <= n <= 4
  {
    var code := c as int;
    if code < 0x80 then 1 else if code < 0x800 then 2 else if code < 0x1_0000 then 3 else 4
  }

  /** The length of `s` in UTF-8 bytes. */
  function ByteLen(s: string): (n: nat)
    ensures |s| <= n <= 4 * |s|
  {
    if s == [] then 0 else CharBytes(s[0]) + ByteLen(s[1..])
  }

  lemma ColonAt(a: string, b: string)
    requires ':' !in a
    ensures (a + ":" + b)[|a|] == ':'
    ensures forall i | 0 <= i < |a| :: (a + ":" + b)[i] != ':'
  {
    forall i | 0 <= i < |a| ensures (a + ":" + b)[i] != ':' {
      assert (a + ":" + b)[i] == a[i] && a[i] in a;
    }
  }

  /** A colon-free head is determined by the joined text. */
  lemma SplitAtColon(a: string, b: string, a': string, b': string)
    requires ':' !in a && ':' !in a'
    requires a + ":" + b == a' + ":" + b'
    ensures a == a' && b == b'
  {
    var s, s' := a + ":" + b, a' + ":" + b';
    ColonAt(a, b);
    ColonAt(a', b');
    assert |a| == |a'|;
    assert a == s[..|a|] == s'[..|a|] == a';
    assert b == s[|a| + 1..] == s'[|a| + 1..] == b';
  }

  lemma SubsetIsSmaller<T>(small: set<T>, large: set<T>)
    requires small <= large
    ensures |small| <= |large|
  {
    assert large == small + (large - small);
  }

  lemma SubsetOfEqualSize<T>(small: set<T>, large: set<T>)
    requires small <= large && |small| == |large|
    ensures small == large
  {
    assert large == small + (large - small);
    assert |large| == |small| + |large - small|;
  }
}
