/** The temp-file name generator: `randSeq(n)` draws `n` letters from a fixed
    52-letter alphabet, and `TempFile` names its file `prefix + "_" + randSeq(5)`.

    The package-wide random source is not modelled; each draw is an arbitrary
    index into the alphabet, which is all `rand.Intn(52)` promises.
 */
module TempName {

  /** The alphabet's k-th letter: "a".."z" at 0..25, then "A".."Z" at 26..51,
      the order of the letter string in `randSeq`. */
  function LetterAt(k: nat): char
    requires k < 52
  {
    if k < 26 then ('a' as int + k) as char else ('A' as int + (k - 26)) as char
  }

  const Letters: string := seq(52, k requires 0 <= k < 52 => LetterAt(k))

  predicate IsLetter(c: char)
  {
    'a' <= c <= 'z' || 'A' <= c <= 'Z'
  }

  predicate AllLetters(s: string)
  {
    forall i :: 0 <= i < |s| ==> IsLetter(s[i])
  }

  /** The position of a letter in the alphabet. */
  function IndexOf(c: char): (k: nat)
    requires IsLetter(c)
    ensures k < 52
  {
    if 'a' <= c <= 'z' then c as int - 'a' as int else 26 + (c as int - 'A' as int)
  }

  /** The alphabet is exactly the 52 ASCII letters, each at one position:
      every entry is a letter, and every letter sits at its `IndexOf`. */
  lemma AlphabetIsAsciiLetters(c: char, k: nat)
    requires k < 52
    ensures |Letters| == 52
    ensures IsLetter(Letters[k])
    ensures IndexOf(Letters[k]) == k
    ensures IsLetter(c) ==> Letters[IndexOf(c)] == c
  {
  }

  lemma AlphabetEnds()
    ensures Letters[0] == 'a' && Letters[25] == 'z'
    ensures Letters[26] == 'A' && Letters[51] == 'Z'
  {
  }

  /** `randSeq(n)` spelled from the draws it makes, one alphabet index each. */
  function FromDraws(draws: seq<nat>): (s: string)
    requires forall i :: 0 <= i < |draws| ==> draws[i] < 52
    ensures |s| == |draws|
    ensures AllLetters(s)
  {
    seq(|draws|, i requires 0 <= i < |draws| => LetterAt(draws[i]))
  }

  /** `randSeq(n)`: `n` independent draws from the alphabet. Which index each
      draw yields is left open; `draws` records them, and the result is
      exactly the letters they spell. */
  method RandSeq(n: nat) returns (s: string, ghost draws: seq<nat>)
    ensures |s| == n
    ensures AllLetters(s)
    ensures |draws| == n && forall j :: 0 <= j < |draws| ==> draws[j] < 52
    ensures s == FromDraws(draws)
  {
    s := "";
    draws := [];
    var i := 0;
    while i < n
      invariant i <= n
      invariant |s| == i && |draws| == i
      invariant forall j :: 0 <= j < |draws| ==> draws[j] < 52
      invariant AllLetters(s)
      invariant s == FromDraws(draws)
    {
      var k :| 0 <= k < |Letters|;
      AlphabetIsAsciiLetters(Letters[k], k);
      s := s + [Letters[k]];
      draws := draws + [k];
      i := i + 1;
    }
  }

  /** The draws that spell a given letter string. */
  function ToDraws(s: string): (draws: seq<nat>)
    requires AllLetters(s)
    ensures |draws| == |s|
    ensures forall i :: 0 <= i < |draws| ==> draws[i] < 52
  {
    seq(|s|, i requires 0 <= i < |s| => IndexOf(s[i]))
  }

  /** Every string of `n` letters is a possible `randSeq(n)`: its draws spell
      it back (and `RandSeq` returns exactly what its draws spell), and
      spelling draws then reading them back is the identity. */
  lemma DrawsRoundTrip(s: string, draws: seq<nat>)
    requires AllLetters(s)
    requires forall i :: 0 <= i < |draws| ==> draws[i] < 52
    ensures FromDraws(ToDraws(s)) == s
    ensures ToDraws(FromDraws(draws)) == draws
  {
  }

  /** Length of the random suffix `TempFile` asks for. */
  const SuffixLength := 5

  /** The base name `TempFile` builds. */
  function BaseName(prefix: string, suffix: string): string
  {
    prefix + "_" + suffix
  }

  /** A name of the shape `TempFile` produces for `prefix`: the prefix, an
      underscore, then exactly five letters. */
  predicate IsTempName(name: string, prefix: string)
  {
    && |name| == |prefix| + 1 + SuffixLength
    && name[..|prefix|] == prefix
    && name[|prefix|] == '_'
    && AllLetters(name[|prefix| + 1..])
  }

  /** The suffix of a temp name, the inverse of `BaseName` on its second part. */
  function SuffixOf(name: string, prefix: string): string
    requires IsTempName(name, prefix)
  {
    name[|prefix| + 1..]
  }

  /** `BaseName` yields a temp name exactly when the suffix is five letters,
      and the suffix can be read back from it. */
  lemma BaseNameShape(prefix: string, suffix: string)
    ensures IsTempName(BaseName(prefix, suffix), prefix) <==> |suffix| == SuffixLength && AllLetters(suffix)
    ensures IsTempName(BaseName(prefix, suffix), prefix) ==> SuffixOf(BaseName(prefix, suffix), prefix) == suffix
  {
  }

  /** Every temp name for `prefix` is `BaseName` of its own suffix. */
  lemma TempNameIsBaseName(name: string, prefix: string)
    requires IsTempName(name, prefix)
    ensures BaseName(prefix, SuffixOf(name, prefix)) == name
  {
  }
}
