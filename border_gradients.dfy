/**
 * Key -> gradient hashing (app/utils/borderGradients.ts).
 *
 * A key is a JavaScript string, i.e. a sequence of UTF-16 code units as
 * `charCodeAt` returns them. The running sum is wrapped to 32 bits after
 * every code unit (`>>> 0`) and its remainder modulo 12 picks one of the
 * twelve gradients.
 */
module BorderGradients {
  import opened Arithmetic

  /** A UTF-16 code unit. */
  newtype CodeUnit = x: int | 0 <= x < 0x1_0000

  /** 2^32: the modulus of `>>> 0`. */
  const Uint32Modulus: int := 0x1_0000_0000

  const Gradients: seq<string> := [
    "linear-gradient(135deg,#ff9a9e 0%,#fad0c4 100%)",
    "linear-gradient(135deg,#a18cd1 0%,#fbc2eb 100%)",
    "linear-gradient(135deg,#f6d365 0%,#fda085 100%)",
    "linear-gradient(135deg,#84fab0 0%,#8fd3f4 100%)",
    "linear-gradient(135deg,#89f7fe 0%,#66a6ff 100%)",
    "linear-gradient(135deg,#fccb90 0%,#d57eeb 100%)",
    "linear-gradient(135deg,#f093fb 0%,#f5576c 100%)",
    "linear-gradient(135deg,#43e97b 0%,#38f9d7 100%)",
    "linear-gradient(135deg,#fa709a 0%,#fee140 100%)",
    "linear-gradient(135deg,#30cfd0 0%,#330867 100%)",
    "linear-gradient(135deg,#ffecd2 0%,#fcb69f 100%)",
    "linear-gradient(135deg,#e0c3fc 0%,#8ec5fc 100%)"
  ]

  /** The sum the source's loop holds after reading all of `key`, wrapped after each step. */
  function WrappedSum(key: seq<CodeUnit>): nat {
    if key == [] then 0
    else (WrappedSum(key[..|key| - 1]) + key[|key| - 1] as int) % Uint32Modulus
  }

  /** The plain, unbounded sum of the code units. */
  function PlainSum(key: seq<CodeUnit>): nat {
    if key == [] then 0 else PlainSum(key[..|key| - 1]) + key[|key| - 1] as int
  }

  /** Wrapping after every step is the same as wrapping once at the end. */
  lemma {:induction false} WrappedSumIsPlainSumMod(key: seq<CodeUnit>)
    ensures WrappedSum(key) == PlainSum(key) % Uint32Modulus
  {
    if key != [] {
      var init, last := key[..|key| - 1], key[|key| - 1] as int;
      WrappedSumIsPlainSumMod(init);
      ModOfSum(PlainSum(init), last, Uint32Modulus);
    }
  }

  lemma {:induction false} PlainSumAppend(s: seq<CodeUnit>, t: seq<CodeUnit>)
    ensures PlainSum(s + t) == PlainSum(s) + PlainSum(t)
  {
    if t == [] {
      assert s + t == s;
    } else {
      var init := t[..|t| - 1];
      PlainSumAppend(s, init);
      assert (s + t)[..|s + t| - 1] == s + init;
    }
  }

  /** Taking one code unit out of a key lowers the plain sum by exactly that code unit. */
  lemma PlainSumRemove(s: seq<CodeUnit>, j: nat)
    requires j < |s|
    ensures PlainSum(s) == PlainSum(s[..j] + s[j + 1..]) + s[j] as int
  {
    assert s == s[..j] + ([s[j]] + s[j + 1..]);
    PlainSumAppend(s[..j], [s[j]] + s[j + 1..]);
    PlainSumAppend([s[j]], s[j + 1..]);
    assert PlainSum([s[j]]) == s[j] as int by {
      assert [s[j]][..0] == [];
    }
    PlainSumAppend(s[..j], s[j + 1..]);
  }

  lemma MultisetRemove(s: seq<CodeUnit>, j: nat)
    requires j < |s|
    ensures multiset(s[..j] + s[j + 1..]) == multiset(s) - multiset{s[j]}
  {
    assert s == s[..j] + [s[j]] + s[j + 1..];
  }

  /** The plain sum depends only on the multiset of code units. */
  lemma {:induction false} PlainSumPermutation(a: seq<CodeUnit>, b: seq<CodeUnit>)
    requires multiset(a) == multiset(b)
    ensures PlainSum(a) == PlainSum(b)
  {
    if a == [] {
      assert |b| == |multiset(b)| == 0;
    } else {
      var n := |a| - 1;
      var last := a[n];
      assert last in multiset(b);
      var j :| 0 <= j < |b| && b[j] == last;
      MultisetRemove(a, n);
      MultisetRemove(b, j);
      assert a[..n] + a[n + 1..] == a[..n];
      PlainSumPermutation(a[..n], b[..j] + b[j + 1..]);
      PlainSumRemove(b, j);
    }
  }

  /** Rearranging the characters of a key never changes its gradient. */
  lemma GradientIndexPermutation(a: seq<CodeUnit>, b: seq<CodeUnit>)
    requires multiset(a) == multiset(b)
    ensures WrappedSum(a) % |Gradients| == WrappedSum(b) % |Gradients|
  {
    WrappedSumIsPlainSumMod(a);
    WrappedSumIsPlainSumMod(b);
    PlainSumPermutation(a, b);
  }

  /**
   * gradientForKey: the loop of the source, proved to compute the wrapped sum
   * and hence to return one of the twelve table entries.
   */
  method GradientForKey(key: seq<CodeUnit>) returns (gradient: string)
    ensures gradient == Gradients[WrappedSum(key) % |Gradients|]
    ensures gradient in Gradients
    ensures key == [] ==> gradient == Gradients[0]
  {
    var sum: nat := 0;
    for i := 0 to |key|
      invariant sum == WrappedSum(key[..i])
    {
      assert key[..i + 1][..i] == key[..i];
      sum := (sum + key[i] as int) % Uint32Modulus;
    }
    assert key[..|key|] == key;
    var idx := sum % |Gradients|;
    gradient := Gradients[idx];
  }
}
