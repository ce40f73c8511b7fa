/**
 * pkg/rand.go: random strings drawn from an alphabet.  The shared generator
 * `r` is an oracle: `draws` are the successive values `r.Intn(len(source))`
 * returns, each in `[0, len(source))`.
 */
module Rand {

  newtype Byte = x: int | 0 <= x < 256

  /** `[0-9]`, `[a-z]`, `[A-Z]` as ASCII codes, in that order. */
  function Range(first: int, count: nat): (r: seq<Byte>)
    requires 0 <= first && first + count <= 256
    ensures |r| == count && forall i :: 0 <= i < count ==> r[i] as int == first + i
  {
    seq(count, i requires 0 <= i < count => (first + i) as Byte)
  }

  /** The package alphabet `0123456789abcdefghijklmnopqrstuvwxyzABCDEFGHIJKLMNOPQRSTUVWXYZ`. */
  const Source: seq<Byte> := Range('0' as int, 10) + Range('a' as int, 26) + Range('A' as int, 26)

  predicate IsAlphanumeric(b: Byte) {
    ('0' as int <= b as int <= '9' as int) || ('a' as int <= b as int <= 'z' as int) || ('A' as int <= b as int <= 'Z' as int)
  }

  /** The alphabet has 62 letters, all alphanumeric, digits first. */
  lemma SourceAlphanumeric()
    ensures |Source| == 62
    ensures forall i :: 0 <= i < |Source| ==> IsAlphanumeric(Source[i])
    ensures Source[0] as int == '0' as int && Source[10] as int == 'a' as int && Source[36] as int == 'A' as int
  {
    var d, l, u := Range('0' as int, 10), Range('a' as int, 26), Range('A' as int, 26);
    assert forall i :: 0 <= i < 10 ==> Source[i] == d[i];
    assert forall i :: 10 <= i < 36 ==> Source[i] == l[i - 10];
    assert forall i :: 36 <= i < 62 ==> Source[i] == u[i - 36];
  }

  /** The string the draws pick out of `source`. */
  function Picked(source: seq<Byte>, draws: seq<int>): (s: seq<Byte>)
    requires forall i :: 0 <= i < |draws| ==> 0 <= draws[i] < |source|
  {
    seq(|draws|, i requires 0 <= i < |draws| => source[draws[i]])
  }

  /** Every picked letter comes from the alphabet, so an alphanumeric alphabet gives an alphanumeric string. */
  lemma PickedFromSource(source: seq<Byte>, draws: seq<int>)
    requires forall i :: 0 <= i < |draws| ==> 0 <= draws[i] < |source|
    ensures |Picked(source, draws)| == |draws|
    ensures forall i :: 0 <= i < |draws| ==> Picked(source, draws)[i] in source
    ensures (forall b :: b in source ==> IsAlphanumeric(b)) ==>
      forall i :: 0 <= i < |draws| ==> IsAlphanumeric(Picked(source, draws)[i])
  {
  }

  /**
   * randBy: `bits` letters, each `source[r.Intn(len(source))]`.  Go panics on
   * a negative `bits` (`make`), and on an empty `source` once a letter is
   * drawn (`Intn(0)`); no draw can then lie in range.  `randBy(0, "")` is "".
   */
  method RandBy(bits: int, source: seq<Byte>, draws: seq<int>) returns (s: seq<Byte>)
    requires bits >= 0
    requires |draws| == bits && forall i :: 0 <= i < |draws| ==> 0 <= draws[i] < |source|
    ensures |s| == bits
    ensures forall i :: 0 <= i < |s| ==> s[i] in source
    ensures s == Picked(source, draws)
  {
    var bytes := new Byte[bits];
    var i := 0;
    while i < bits
      invariant 0 <= i <= bits
      invariant forall k :: 0 <= k < i ==> bytes[k] == source[draws[k]]
    {
      bytes[i] := source[draws[i]];
      i := i + 1;
    }
    s := bytes[..];
  }

  /** randStr: `bits` letters of the alphanumeric alphabet. */
  method RandStr(bits: int, draws: seq<int>) returns (s: seq<Byte>)
    requires bits >= 0
    requires |draws| == bits && forall i :: 0 <= i < |draws| ==> 0 <= draws[i] < 62
    ensures |s| == bits
    ensures forall i :: 0 <= i < |s| ==> IsAlphanumeric(s[i])
    ensures s == Picked(Source, draws)
  {
    SourceAlphanumeric();
    s := RandBy(bits, Source, draws);
  }
}
