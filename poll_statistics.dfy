/** The statistics panel: options ranked by their vote counts, the leading
    option, and the age of the poll as a short English phrase. */
module PollStatistics {
  import opened Common
  import opened Tally

  /** One row of the ranking: an option and its count. */
  datatype Entry = Entry(option: string, votes: nat)

  /** `options.map((option, index) => ({ option, votes: votes[index] || 0 }))`. */
  function Tabulate(options: seq<string>, votes: map<int, nat>): (r: seq<Entry>)
    ensures |r| == |options|
    ensures forall i :: 0 <= i < |r| ==> r[i].option == options[i] && r[i].votes == Get(votes, i)
  {
    seq(|options|, i requires 0 <= i < |options| => Entry(options[i], Get(votes, i)))
  }

  predicate NonIncreasing(s: seq<Entry>)
  {
    forall i, j :: 0 <= i < j < |s| ==> s[i].votes >= s[j].votes
  }

  /** Places `e` in front of the first entry with no more votes than it. */
  function Insert(e: Entry, sorted: seq<Entry>): (r: seq<Entry>)
    requires NonIncreasing(sorted)
    ensures NonIncreasing(r)
    ensures multiset(r) == multiset(sorted) + multiset{e}
    ensures |r| == |sorted| + 1
    ensures r[0] == e || (sorted != [] && r[0] == sorted[0])
  {
    if sorted == [] || sorted[0].votes <= e.votes then
      PrependKeepsOrder(e, sorted);
      [e] + sorted
    else
      var rest := Insert(e, sorted[1..]);
      assert multiset(sorted) == multiset{sorted[0]} + multiset(sorted[1..]) by {
        assert sorted == [sorted[0]] + sorted[1..];
      }
      PrependKeepsOrder(sorted[0], rest);
      [sorted[0]] + rest
  }

  /** An entry with at least the votes of the head of a ranked list can head
      it. */
  lemma PrependKeepsOrder(head: Entry, rest: seq<Entry>)
    requires NonIncreasing(rest)
    requires rest != [] ==> rest[0].votes <= head.votes
    ensures NonIncreasing([head] + rest)
  {
    var r := [head] + rest;
    forall i, j | 0 <= i < j < |r|
      ensures r[i].votes >= r[j].votes
    {
      assert r[j] == rest[j - 1];
      if i > 0 {
        assert r[i] == rest[i - 1];
      }
    }
  }

  /** `.sort((a, b) => b.votes - a.votes)`: a stable sort, most votes first. */
  function SortByVotes(s: seq<Entry>): (r: seq<Entry>)
    ensures NonIncreasing(r)
    ensures multiset(r) == multiset(s)
    ensures |r| == |s|
  {
    if s == [] then []
    else
      assert s == [s[0]] + s[1..];
      Insert(s[0], SortByVotes(s[1..]))
  }

  /** The entries with exactly `v` votes, in order. */
  function WithVotes(s: seq<Entry>, v: nat): seq<Entry>
  {
    if s == [] then []
    else if s[0].votes == v then [s[0]] + WithVotes(s[1..], v)
    else WithVotes(s[1..], v)
  }

  lemma {:induction false} InsertWithVotes(e: Entry, sorted: seq<Entry>, v: nat)
    requires NonIncreasing(sorted)
    ensures WithVotes(Insert(e, sorted), v) ==
              if e.votes == v then [e] + WithVotes(sorted, v) else WithVotes(sorted, v)
  {
    if sorted != [] && sorted[0].votes > e.votes {
      InsertWithVotes(e, sorted[1..], v);
      var r := Insert(e, sorted);
      assert r[1..] == Insert(e, sorted[1..]);
    } else {
      assert (Insert(e, sorted))[1..] == sorted;
    }
  }

  /** The sort is stable: entries with equal counts keep the options' order. */
  lemma {:induction false} SortStable(s: seq<Entry>, v: nat)
    ensures WithVotes(SortByVotes(s), v) == WithVotes(s, v)
  {
    if s != [] {
      SortStable(s[1..], v);
      InsertWithVotes(s[0], SortByVotes(s[1..]), v);
    }
  }

  /** `sortedOptions[0]`; `None` stands for `undefined` on an empty list. */
  function Winner(ranked: seq<Entry>): Option<Entry>
  {
    if ranked == [] then None else Some(ranked[0])
  }

  /** The leading option has at least as many votes as every option. */
  lemma WinnerIsMax(options: seq<string>, votes: map<int, nat>)
    requires options != []
    ensures var w := Winner(SortByVotes(Tabulate(options, votes)));
            && w.Some?
            && w.value in Tabulate(options, votes)
            && forall i :: 0 <= i < |options| ==> w.value.votes >= Get(votes, i)
  {
    var rows := Tabulate(options, votes);
    var ranked := SortByVotes(rows);
    assert ranked[0] in multiset(ranked);
    forall i | 0 <= i < |options|
      ensures ranked[0].votes >= Get(votes, i)
    {
      assert rows[i] in multiset(ranked);
      var j :| 0 <= j < |ranked| && ranked[j] == rows[i];
    }
  }

  /** A unit of `getTimeSince`, with its length in seconds. */
  datatype Unit = Unit(name: string, seconds: nat)

  /** The units in the order they are tried, largest first. */
  const Units: seq<Unit> := [
    Unit("year", 31536000), Unit("month", 2592000), Unit("week", 604800),
    Unit("day", 86400), Unit("hour", 3600), Unit("minute", 60)]

  datatype Age = JustNow | Ago(count: nat, unit: nat)

  /** `Math.floor(seconds / value)`; Dafny's division floors for a positive divisor. */
  function Quotient(seconds: int, k: nat): int
    requires k < |Units|
  {
    seconds / Units[k].seconds
  }

  /** The `for-of` loop from unit `k` on: the first unit whose quotient is at
      least 1, or `JustNow` when there is none. */
  function AgeFrom(seconds: int, k: nat): (a: Age)
    requires k <= |Units|
    ensures a.Ago? ==> && k <= a.unit < |Units|
                       && a.count == Quotient(seconds, a.unit) >= 1
                       && forall j :: k <= j < a.unit ==> Quotient(seconds, j) < 1
    ensures a.JustNow? ==> forall j :: k <= j < |Units| ==> Quotient(seconds, j) < 1
    decreases |Units| - k
  {
    if k == |Units| then JustNow
    else if Quotient(seconds, k) >= 1 then Ago(Quotient(seconds, k), k)
    else AgeFrom(seconds, k + 1)
  }

  /** "Just now" exactly when fewer than 60 whole seconds have passed,
      negative ages included. */
  lemma JustNowBelowAMinute(seconds: int)
    ensures AgeFrom(seconds, 0).JustNow? <==> seconds < 60
  {
    if seconds >= 60 {
      assert Quotient(seconds, 5) >= 1;
    } else {
      forall j | 0 <= j < |Units|
        ensures Quotient(seconds, j) < 1
      {
        assert Units[j].seconds >= 60;
        if seconds >= 0 {
          assert seconds / Units[j].seconds == 0;
        } else {
          assert seconds / Units[j].seconds < 0;
        }
      }
    }
  }

  function Digit(d: nat): char
    requires d < 10
  {
    ('0' as int + d) as char
  }

  /** The decimal numeral of `n`, as a template literal prints it. */
  function Decimal(n: nat): (s: string)
    ensures |s| >= 1
    ensures forall k :: 0 <= k < |s| ==> '0' <= s[k] <= '9'
    ensures n > 0 ==> s[0] != '0'
    ensures n < 10 ==> |s| == 1
  {
    if n < 10 then [Digit(n)] else Decimal(n / 10) + [Digit(n % 10)]
  }

  /** The number a numeral of decimal digits stands for. */
  function DecimalValue(s: string): nat
    requires forall k :: 0 <= k < |s| ==> '0' <= s[k] <= '9'
  {
    if s == [] then 0 else DecimalValue(s[..|s| - 1]) * 10 + (s[|s| - 1] as int - '0' as int)
  }

  lemma {:induction false} DecimalRoundTrip(n: nat)
    ensures DecimalValue(Decimal(n)) == n
  {
    if n >= 10 {
      DecimalRoundTrip(n / 10);
      var s := Decimal(n);
      assert s[..|s| - 1] == Decimal(n / 10);
    }
  }

  /** `${interval} ${name}${interval > 1 ? 's' : ''}`, or "Just now". */
  function Phrase(a: Age): (s: string)
    requires a.Ago? ==> a.unit < |Units|
    ensures |s| > 0
    ensures a.JustNow? <==> s == "Just now"
    ensures a.Ago? ==> (s[|s| - 1] == 's' <==> a.count > 1)
  {
    match a
    case JustNow => "Just now"
    case Ago(count, unit) =>
      var numeral := Decimal(count);
      var name := Units[unit].name;
      assert name[|name| - 1] != 's';
      var phrase := numeral + " " + name + (if count > 1 then "s" else "");
      assert phrase[0] == numeral[0] && "Just now"[0] == 'J';
      phrase
  }

  /** The position of the first space in `s`, or `|s|` when there is none. */
  function SpaceAt(s: string): (i: nat)
    ensures i <= |s|
    ensures forall k :: 0 <= k < i ==> s[k] != ' '
    ensures i < |s| ==> s[i] == ' '
  {
    if s == [] || s[0] == ' ' then 0 else 1 + SpaceAt(s[1..])
  }

  /** The first unit from `k` on called `word`, or `|Units|` when none is. */
  function UnitNamed(word: string, k: nat): (u: nat)
    requires k <= |Units|
    ensures k <= u <= |Units|
    ensures u < |Units| ==> Units[u].name == word
    ensures forall j :: k <= j < u ==> Units[j].name != word
    decreases |Units| - k
  {
    if k == |Units| then |Units|
    else if Units[k].name == word then k
    else UnitNamed(word, k + 1)
  }

  predicate AllDigits(s: string)
  {
    forall k :: 0 <= k < |s| ==> '0' <= s[k] <= '9'
  }

  /** A unit word without its plural "s". */
  function Singular(word: string): string
  {
    if word != [] && word[|word| - 1] == 's' then word[..|word| - 1] else word
  }

  /** Reads an age back out of a phrase: "Just now", or a numeral without a
      leading zero, a space and a unit name with an optional plural "s".
      `None` for anything else. */
  function ParsePhrase(s: string): Option<Age>
  {
    if s == "Just now" then Some(JustNow)
    else
      var i := SpaceAt(s);
      if i == |s| || i == 0 || (i > 1 && s[0] == '0') || !AllDigits(s[..i]) then None
      else
        var u := UnitNamed(Singular(s[i + 1..]), 0);
        if u == |Units| then None else Some(Ago(DecimalValue(s[..i]), u))
  }

  /** The names of the units are distinct and none ends in "s". */
  lemma UnitNames()
    ensures forall i, j :: 0 <= i < j < |Units| ==> Units[i].name != Units[j].name
    ensures forall u :: 0 <= u < |Units| ==> Units[u].name != [] && Units[u].name[|Units[u].name| - 1] != 's'
  {
  }

  /** Each unit is found by its own name. */
  lemma UnitNamedFinds(u: nat)
    requires u < |Units|
    ensures UnitNamed(Units[u].name, 0) == u
  {
    UnitNames();
  }

  /** The plural "s" is the only thing `Singular` drops from a unit name. */
  lemma SingularOfName(u: nat, plural: bool)
    requires u < |Units|
    ensures Singular(Units[u].name + (if plural then "s" else "")) == Units[u].name
  {
    UnitNames();
    var name := Units[u].name;
    if plural {
      assert (name + "s")[..|name|] == name;
    }
  }

  /** The first space after a numeral is the one that follows it. */
  lemma {:induction false} SpaceAfterNumeral(numeral: string, rest: string)
    requires AllDigits(numeral)
    ensures SpaceAt(numeral + " " + rest) == |numeral|
  {
    if numeral != [] {
      assert (numeral + " " + rest)[1..] == numeral[1..] + " " + rest;
      SpaceAfterNumeral(numeral[1..], rest);
    }
  }

  /** The phrase reports the age it was made from: its numeral is the count
      and its word names the unit. */
  lemma PhraseRoundTrip(a: Age)
    requires a.Ago? ==> a.unit < |Units|
    ensures ParsePhrase(Phrase(a)) == Some(a)
  {
    if a.Ago? {
      var numeral := Decimal(a.count);
      var word := Units[a.unit].name + (if a.count > 1 then "s" else "");
      var s := Phrase(a);
      assert s == numeral + " " + word;
      assert s != "Just now" by { assert s[0] == numeral[0]; }
      SpaceAfterNumeral(numeral, word);
      assert s[..|numeral|] == numeral;
      assert s[|numeral| + 1..] == word;
      SingularOfName(a.unit, a.count > 1);
      UnitNamedFinds(a.unit);
      DecimalRoundTrip(a.count);
    }
  }

  /** `getTimeSince(date)` for a creation time and the current time, both in
      milliseconds: the phrase for the first unit that fits the floored
      whole seconds. */
  function TimeSince(createdMs: int, nowMs: int): (s: string)
    ensures s == "Just now" <==> (nowMs - createdMs) / 1000 < 60
    ensures ParsePhrase(s) == Some(AgeFrom((nowMs - createdMs) / 1000, 0))
    ensures (nowMs - createdMs) / 1000 >= 60 ==>
              (s[|s| - 1] == 's' <==> AgeFrom((nowMs - createdMs) / 1000, 0).count > 1)
  {
    JustNowBelowAMinute((nowMs - createdMs) / 1000);
    PhraseRoundTrip(AgeFrom((nowMs - createdMs) / 1000, 0));
    Phrase(AgeFrom((nowMs - createdMs) / 1000, 0))
  }

  /** `createdAt?.toDate`: only a timestamp object has a `toDate` method. */
  datatype Created = Timestamp(ms: int) | NoToDate

  /** The results the panel is given; `options` may be missing. */
  datatype Input = Input(options: Option<seq<string>>, votes: map<int, nat>, totalVotes: int, createdAt: Created)

  /** What the panel shows. The winner and the ranking are shown only when
      `showRanking` holds. */
  datatype Panel = Panel(
    ranked: seq<Entry>,
    winner: Option<Entry>,
    showRanking: bool,
    optionCount: nat,
    totalVotes: int,
    age: string)

  /** `PollStatistics`: nothing without results or options. With an empty
      option list and `totalVotes > 0` the page would read `winner.option` of
      `undefined` and throw; here the winner is `None`. The server never
      stores fewer than 2 options. */
  function Statistics(results: Option<Input>, nowMs: int): (p: Option<Panel>)
    ensures p.None? <==> results.None? || results.value.options.None?
    ensures p.Some? ==>
              var input := results.value;
              && p.value.ranked == SortByVotes(Tabulate(input.options.value, input.votes))
              && p.value.winner == Winner(p.value.ranked)
              && (p.value.showRanking <==> input.totalVotes > 0)
              && p.value.age == (if input.createdAt.Timestamp? then TimeSince(input.createdAt.ms, nowMs) else "Recently")
              && p.value.optionCount == |input.options.value|
              && p.value.totalVotes == input.totalVotes
  {
    if results.None? || results.value.options.None? then None
    else
      var input := results.value;
      var ranked := SortByVotes(Tabulate(input.options.value, input.votes));
      var age := match input.createdAt
        case Timestamp(ms) => TimeSince(ms, nowMs)
        case NoToDate => "Recently";
      Some(Panel(ranked, Winner(ranked), input.totalVotes > 0, |input.options.value|, input.totalVotes, age))
  }
}
