/** The voting page's selection: which option indices are ticked, and the
    guard that keeps an empty ballot from being sent. */
module VoteSelection {
  import opened Sequences
  import ServerLedger
  import Common

  const NothingSelected := "Please select at least one option"

  /** `prev.filter(i => i !== index)`. */
  function Without(prev: seq<int>, index: int): (r: seq<int>)
    ensures index !in r
    ensures forall x :: x != index ==> multiset(r)[x] == multiset(prev)[x]
    ensures IsSubsequence(r, prev)
  {
    if prev == [] then []
    else
      var rest := Without(prev[1..], index);
      assert prev == [prev[0]] + prev[1..];
      if prev[0] == index then
        assert rest != [] ==> rest[0] != prev[0];
        rest
      else
        [prev[0]] + rest
  }

  /** `handleOptionSelect`'s updater. A single-choice poll replaces the
      selection; a multi-choice poll toggles `index`, removing it where it is
      ticked and appending it at the end where it is not. */
  function Select(multipleChoice: bool, prev: seq<int>, index: int): (r: seq<int>)
    ensures !multipleChoice ==> r == [index]
    ensures multipleChoice && index in prev ==> index !in r && IsSubsequence(r, prev)
    ensures multipleChoice && index !in prev ==> r == prev + [index]
    ensures multipleChoice ==> forall x :: x != index ==> multiset(r)[x] == multiset(prev)[x]
  {
    if multipleChoice then
      if index in prev then Without(prev, index) else prev + [index]
    else [index]
  }

  /** Toggling flips the one index and leaves every other index as it was;
      a duplicate-free selection stays duplicate-free. */
  lemma ToggleMembership(prev: seq<int>, index: int)
    ensures index in Select(true, prev, index) <==> index !in prev
    ensures forall x :: x != index ==> (x in Select(true, prev, index) <==> x in prev)
    ensures NoDuplicates(prev) ==> NoDuplicates(Select(true, prev, index))
  {
    var r := Select(true, prev, index);
    forall x | x != index
      ensures x in r <==> x in prev
    {
      assert multiset(r)[x] == multiset(prev)[x];
    }
    if NoDuplicates(prev) {
      forall i, j | 0 <= i < j < |r|
        ensures r[i] != r[j]
      {
        if r[i] == r[j] {
          DuplicateCounts(r, i, j);
          if r[i] != index {
            NoDuplicatesCount(prev, r[i]);
          }
        }
      }
    }
  }

  /** Two equal positions make an element occur at least twice. */
  lemma DuplicateCounts(s: seq<int>, i: int, j: int)
    requires 0 <= i < j < |s| && s[i] == s[j]
    ensures multiset(s)[s[i]] >= 2
  {
    var x := s[i];
    assert s == s[..i] + [x] + s[i + 1..j] + [x] + s[j + 1..];
    assert multiset(s) == multiset(s[..i]) + multiset{x} + multiset(s[i + 1..j]) + multiset{x} + multiset(s[j + 1..]);
  }

  /** In a duplicate-free sequence every element occurs at most once. */
  lemma {:induction false} NoDuplicatesCount(s: seq<int>, x: int)
    requires NoDuplicates(s)
    ensures multiset(s)[x] <= 1
  {
    if s != [] {
      NoDuplicatesCount(s[1..], x);
      assert s == [s[0]] + s[1..];
      assert s[0] !in s[1..];
    }
  }

  /** Toggling the same index twice gives back the same set of indices, and
      the very same selection when the index was not ticked before. */
  lemma ToggleTwice(prev: seq<int>, index: int)
    ensures forall x :: x in Select(true, Select(true, prev, index), index) <==> x in prev
    ensures index !in prev ==> Select(true, Select(true, prev, index), index) == prev
  {
    var once := Select(true, prev, index);
    ToggleMembership(prev, index);
    ToggleMembership(once, index);
    if index !in prev {
      WithoutAbsent(prev, index);
      WithoutLast(prev, index);
    }
  }

  lemma {:induction false} WithoutAbsent(s: seq<int>, index: int)
    requires index !in s
    ensures Without(s, index) == s
  {
    if s != [] {
      WithoutAbsent(s[1..], index);
    }
  }

  lemma {:induction false} WithoutLast(s: seq<int>, index: int)
    ensures Without(s + [index], index) == Without(s, index)
  {
    if s == [] {
      assert Without([index], index) == Without([], index);
    } else {
      WithoutLast(s[1..], index);
      assert (s + [index])[1..] == s[1..] + [index];
    }
  }

  /** What pressing "Submit Vote" does with the current selection. */
  datatype Submission = ShowError(message: string) | SendVote(optionIndices: seq<int>)

  /** `handleSubmit`'s guard: an empty selection only sets the error. */
  function Submit(selected: seq<int>): (s: Submission)
    ensures s.ShowError? <==> selected == []
    ensures s.ShowError? ==> s.message == NothingSelected
    ensures s.SendVote? ==> s.optionIndices == selected
  {
    if |selected| == 0 then ShowError(NothingSelected) else SendVote(selected)
  }

  /** A sent selection passes the server's first check on `optionIndices`. */
  lemma SentSelectionHasIndices(selected: seq<int>, voterId: string)
    requires Submit(selected).SendVote?
    ensures var req := ServerLedger.VoteRequest(ServerLedger.Indices(Submit(selected).optionIndices), Common.Some(voterId));
            ServerLedger.VoteRejection(Common.None, req) != Common.Some((400, ServerLedger.IndicesInvalid))
  {
  }
}
