/** Poll identifiers: 8 symbols, each drawn from the 36-symbol alphabet of
    lower-case letters and digits. The random source is a parameter: each
    draw is the already-floored `Math.floor(Math.random() * 36)`. */
module PollIds {

  const Alphabet: string := "abcdefghijklmnopqrstuvwxyz0123456789"
  const IdLength: nat := 8

  /** The symbol at position `d` of the alphabet, computed without the table. */
  function Symbol(d: nat): (c: char)
    requires d < 36
  {
    if d < 26 then ('a' as int + d) as char else ('0' as int + d - 26) as char
  }

  lemma AlphabetSymbols()
    ensures |Alphabet| == 36
    ensures forall d :: 0 <= d < 36 ==> Alphabet[d] == Symbol(d)
  {
    assert Alphabet == seq(36, d requires 0 <= d < 36 => Symbol(d));
  }

  lemma SymbolRoundTrip(d: nat)
    requires d < 36
    ensures SymbolIndex(Symbol(d)) == d
  {
  }

  /** Inverse of `Symbol` on the alphabet; -1 for any other character. */
  function SymbolIndex(c: char): (d: int)
    ensures d == -1 || (0 <= d < 36 && Symbol(d) == c)
  {
    if 'a' <= c <= 'z' then c as int - 'a' as int
    else if '0' <= c <= '9' then c as int - '0' as int + 26
    else -1
  }

  /** The identifier a sequence of draws spells. */
  function Spell(draws: seq<nat>): (id: string)
    requires forall k :: 0 <= k < |draws| ==> draws[k] < 36
    ensures |id| == |draws|
    ensures forall k :: 0 <= k < |id| ==> id[k] == Symbol(draws[k])
  {
    seq(|draws|, k requires 0 <= k < |draws| => Symbol(draws[k]))
  }

  /** Reads the draws back out of an identifier. */
  function Unspell(id: string): seq<int>
  {
    seq(|id|, k requires 0 <= k < |id| => SymbolIndex(id[k]))
  }

  /** Different draws give different identifiers: the identifier determines
      the draws that produced it. */
  lemma SpellRoundTrip(draws: seq<nat>)
    requires forall k :: 0 <= k < |draws| ==> draws[k] < 36
    ensures Unspell(Spell(draws)) == draws
  {
    var id := Spell(draws);
    forall k | 0 <= k < |draws|
      ensures SymbolIndex(id[k]) == draws[k]
    {
      SymbolRoundTrip(draws[k]);
    }
  }

  /** `generatePollId`: eight rounds of `id += chars[draw]`. */
  method GeneratePollId(draws: seq<nat>) returns (id: string)
    requires |draws| == IdLength
    requires forall k :: 0 <= k < |draws| ==> draws[k] < 36
    ensures |id| == IdLength
    ensures forall k :: 0 <= k < |id| ==> id[k] in Alphabet
    ensures id == Spell(draws)
  {
    AlphabetSymbols();
    id := "";
    var i := 0;
    while i < IdLength
      invariant 0 <= i <= IdLength
      invariant id == Spell(draws[..i])
    {
      id := id + [Alphabet[draws[i]]];
      i := i + 1;
    }
    assert draws[..IdLength] == draws;
  }
}
