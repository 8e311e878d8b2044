/** The create-poll form: editing the option list, which the buttons keep
    between 2 and 5 entries, and the checks made before the poll is sent. */
module CreatePollForm {
  import opened Common
  import opened Sequences
  import ServerLedger

  const MinOptions: nat := 2
  const MaxOptions: nat := 5

  const QuestionMissing := "Please enter a question"
  const TooFewOptions := "Please provide at least 2 options"

  /** What the form sends to the create endpoint. */
  datatype PollRequest = PollRequest(question: string, options: seq<string>, multipleChoice: bool)

  datatype Validation = Send(request: PollRequest) | Refuse(message: string)

  /** `addOption`: appends one empty option while there are fewer than 5. */
  function AddOption(options: seq<string>): (r: seq<string>)
    ensures |options| < MaxOptions ==> r == options + [""]
    ensures |options| >= MaxOptions ==> r == options
    ensures MinOptions <= |options| <= MaxOptions ==> MinOptions <= |r| <= MaxOptions
  {
    if |options| < MaxOptions then options + [""] else options
  }

  /** `removeOption`: drops position `index` while there are more than 2
      options; an index outside the list removes nothing. */
  function RemoveOption(options: seq<string>, index: int): (r: seq<string>)
    ensures |options| <= MinOptions ==> r == options
    ensures |options| > MinOptions && 0 <= index < |options| ==>
              && |r| == |options| - 1
              && (forall j :: 0 <= j < index ==> r[j] == options[j])
              && (forall j :: index <= j < |r| ==> r[j] == options[j + 1])
    ensures !(0 <= index < |options|) ==> r == options
    ensures MinOptions <= |options| <= MaxOptions ==> MinOptions <= |r| <= MaxOptions
  {
    if |options| > MinOptions && 0 <= index < |options| then options[..index] + options[index + 1..]
    else options
  }

  /** `updateOption`: copies the list and overwrites position `index`. The
      form only calls it with the position of an existing input. */
  method UpdateOption(options: seq<string>, index: nat, value: string) returns (r: seq<string>)
    requires index < |options|
    ensures |r| == |options|
    ensures r[index] == value
    ensures forall j :: 0 <= j < |r| && j != index ==> r[j] == options[j]
  {
    var copy := new string[|options|](j requires 0 <= j < |options| => options[j]);
    copy[index] := value;
    r := copy[..];
  }

  /** The characters `String.prototype.trim` removes: the ECMAScript
      WhiteSpace and LineTerminator characters. */
  predicate IsSpace(c: char)
  {
    var n := c as int;
    || 0x09 <= n <= 0x0D                     // tab, line feed, vertical tab, form feed, carriage return
    || n == 0x20 || n == 0xA0 || n == 0x1680  // space, no-break space, ogham space mark
    || 0x2000 <= n <= 0x200A                 // en quad .. hair space
    || n == 0x2028 || n == 0x2029            // line and paragraph separator
    || n == 0x202F || n == 0x205F || n == 0x3000
    || n == 0xFEFF                           // byte order mark
  }

  /** Drops leading white space: the result is a suffix of `s` that is empty
      or starts with a non-space, and everything dropped is white space. */
  function TrimStart(s: string): (r: string)
    ensures |r| <= |s| && r == s[|s| - |r|..]
    ensures forall k :: 0 <= k < |s| - |r| ==> IsSpace(s[k])
    ensures r == [] || !IsSpace(r[0])
  {
    if |s| > 0 && IsSpace(s[0]) then TrimStart(s[1..]) else s
  }

  /** Drops trailing white space: the result is a prefix of `s` that is empty
      or ends with a non-space, and everything dropped is white space. */
  function TrimEnd(s: string): (r: string)
    ensures |r| <= |s| && r == s[..|r|]
    ensures forall k :: |r| <= k < |s| ==> IsSpace(s[k])
    ensures r == [] || !IsSpace(r[|r| - 1])
  {
    if |s| > 0 && IsSpace(s[|s| - 1]) then TrimEnd(s[..|s| - 1]) else s
  }

  /** `String.prototype.trim`. */
  function Trim(s: string): string
  {
    TrimEnd(TrimStart(s))
  }

  /** A string is blank (its trim is falsy) exactly when it is all white space. */
  lemma TrimEmpty(s: string)
    ensures Trim(s) == "" <==> forall k :: 0 <= k < |s| ==> IsSpace(s[k])
  {
    var t := TrimStart(s);
    if exists k :: 0 <= k < |s| && !IsSpace(s[k]) {
      var k :| 0 <= k < |s| && !IsSpace(s[k]);
      assert t[k - (|s| - |t|)] == s[k];
    }
  }

  /** Trimming is a no-op on a trimmed string. */
  lemma TrimIdempotent(s: string)
    ensures Trim(Trim(s)) == Trim(s)
  {
    var u := Trim(s);
    if u != [] {
      assert TrimStart(u) == u;
      assert TrimEnd(u) == u;
    }
  }

  predicate IsBlank(s: string)
  {
    Trim(s) == ""
  }

  /** `options.filter(opt => opt.trim())`: the entries that are not blank,
      untrimmed, in their original order. */
  function NonBlank(options: seq<string>): (r: seq<string>)
    ensures |r| <= |options|
    ensures forall k :: 0 <= k < |r| ==> !IsBlank(r[k])
  {
    if options == [] then []
    else
      var rest := NonBlank(options[1..]);
      if IsBlank(options[0]) then rest else [options[0]] + rest
  }

  /** A blank entry is dropped wherever it occurs; any other entry is kept
      as often as it occurs. */
  lemma {:induction false} NonBlankCounts(options: seq<string>, x: string)
    ensures multiset(NonBlank(options))[x] == if IsBlank(x) then 0 else multiset(options)[x]
  {
    if options != [] {
      var head := options[0];
      var rest := NonBlank(options[1..]);
      NonBlankCounts(options[1..], x);
      assert multiset(options)[x] == multiset{head}[x] + multiset(options[1..])[x] by {
        assert options == [head] + options[1..];
      }
      if IsBlank(head) {
        assert NonBlank(options) == rest;
      } else {
        assert NonBlank(options) == [head] + rest;
        assert multiset([head] + rest)[x] == multiset{head}[x] + multiset(rest)[x];
      }
    }
  }

  /** `NonBlank` keeps the order of the entries it keeps. */
  lemma {:induction false} NonBlankInOrder(options: seq<string>)
    ensures IsSubsequence(NonBlank(options), options)
  {
    if options != [] {
      NonBlankInOrder(options[1..]);
      var rest := NonBlank(options[1..]);
      if IsBlank(options[0]) {
        assert rest != [] ==> rest[0] != options[0];
      } else {
        assert NonBlank(options) == [options[0]] + rest;
      }
    }
  }

  /** `handleSubmit`'s checks: a blank question is refused first, then fewer
      than 2 non-blank options; otherwise the trimmed question and the
      non-blank options are sent. */
  function Validate(question: string, options: seq<string>, multipleChoice: bool): (v: Validation)
    ensures IsBlank(question) ==> v == Refuse(QuestionMissing)
    ensures !IsBlank(question) && |NonBlank(options)| < MinOptions ==> v == Refuse(TooFewOptions)
    ensures v.Send? <==> !IsBlank(question) && |NonBlank(options)| >= MinOptions
    ensures v.Send? ==> v.request == PollRequest(Trim(question), NonBlank(options), multipleChoice)
  {
    if Trim(question) == "" then Refuse(QuestionMissing)
    else
      var valid := NonBlank(options);
      if |valid| < MinOptions then Refuse(TooFewOptions)
      else Send(PollRequest(Trim(question), valid, multipleChoice))
  }

  /** The body the form posts (`createPoll(pollData)`). */
  function Body(request: PollRequest): ServerLedger.CreateRequest
  {
    ServerLedger.CreateRequest(Some(request.question), Some(request.options), Some(request.multipleChoice))
  }

  /** What the form sends has a non-empty, trimmed question and at least two
      options, none of them blank, so the create endpoint accepts it. */
  lemma SentRequestWellFormed(question: string, options: seq<string>, multipleChoice: bool)
    requires Validate(question, options, multipleChoice).Send?
    ensures var req := Validate(question, options, multipleChoice).request;
            && req.question != ""
            && Trim(req.question) == req.question
            && |req.options| >= MinOptions
            && (forall k :: 0 <= k < |req.options| ==> !IsBlank(req.options[k]))
            && ServerLedger.CreateAccepted(Body(req))
  {
    TrimIdempotent(question);
  }
}
