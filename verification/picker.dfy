/** The interactive result picker of the ask command: the answer's bookmarks
    are listed with their numbers, then input lines are read until one
    parses as an integer that indexes the list; every rejected line draws a
    warning and a new prompt. */
module Picker {
  import opened Common
  import opened Models

  /** Python's `int()` on one input line: the number, or `None` where it
      raises `ValueError`. Its accepted syntax is left abstract. */
  type ParseInt = string -> Option<int>

  /** Python list indexing accepts `-n <= i < n`. */
  predicate InRange(i: int, n: nat) {
    -(n as int) <= i < n
  }

  /** The element a valid Python index denotes: negative ones count from the end. */
  function Resolve(i: int, n: nat): (k: nat)
    requires InRange(i, n)
    ensures k < n
    ensures i >= 0 ==> k == i
    ensures i < 0 ==> k + (-i) == n
  {
    if i < 0 then n + i else i
  }

  /** The line is a number that indexes a list of length `n`. */
  predicate Accepts(raw: string, n: nat, parse: ParseInt) {
    parse(raw).Some? && InRange(parse(raw).value, n)
  }

  /** A warning logged for a rejected line. */
  datatype Complaint = InvalidInput(raw: string) | InvalidIndex(index: int)

  /** The warning a line draws when it is not accepted. */
  function Complain(raw: string, parse: ParseInt): (c: Complaint)
    ensures c.InvalidInput? <==> parse(raw).None?
    ensures c.InvalidInput? ==> c.raw == raw
    ensures c.InvalidIndex? ==> parse(raw) == Some(c.index)
  {
    match parse(raw)
    case None => InvalidInput(raw)
    case Some(i) => InvalidIndex(i)
  }

  /** The text of a warning as it is logged: the offending line, or the
      offending number, quoted after a fixed prefix. */
  function ComplaintText(c: Complaint): (t: string)
    ensures c.InvalidInput? ==>
      |t| > 16 + |c.raw| && t[..16] == "Invalid input: '" && t[16..16 + |c.raw|] == c.raw
    ensures c.InvalidIndex? ==>
      |t| > 16 + |Decimal(c.index)| && t[..16] == "Invalid index: '" && t[16..16 + |Decimal(c.index)|] == Decimal(c.index)
  {
    match c
    case InvalidInput(raw) => "Invalid input: '" + raw + "'. Please enter a number."
    case InvalidIndex(i) => "Invalid index: '" + Decimal(i) + "'. Please select a valid index."
  }

  /** Distinct warnings have distinct texts: a logged line identifies the
      rejected input. */
  lemma ComplaintTextInjective(c: Complaint, d: Complaint)
    requires ComplaintText(c) == ComplaintText(d)
    ensures c == d
  {
    if c.InvalidInput? && d.InvalidInput? {
      assert |c.raw| == |d.raw|;
    } else if c.InvalidIndex? && d.InvalidIndex? {
      assert |Decimal(c.index)| == |Decimal(d.index)|;
      DecimalInjective(c.index, d.index);
    }
  }

  /** What the selection loop did: the warnings it logged, the index of the
      bookmark it opened (if the input ran out first, none), and how many
      lines it read. */
  datatype Pick = Pick(complaints: seq<Complaint>, chosen: Option<nat>, consumed: nat)

  /** The selection loop over the remaining input lines, for a list of `n`
      bookmarks. It stops at the first accepted line and opens exactly the
      bookmark that line indexes; every earlier line was rejected and drew
      exactly its warning; when no line is accepted, all are read and
      nothing is opened. */
  function Select(n: nat, inputs: seq<string>, parse: ParseInt): (r: Pick)
    ensures r.consumed <= |inputs|
    ensures r.chosen.None? ==> r.consumed == |inputs|
    ensures r.chosen.Some? ==>
      && 0 < r.consumed
      && Accepts(inputs[r.consumed - 1], n, parse)
      && r.chosen.value == Resolve(parse(inputs[r.consumed - 1]).value, n)
    ensures |r.complaints| == if r.chosen.Some? then r.consumed - 1 else r.consumed
    ensures forall j :: 0 <= j < |r.complaints| ==> !Accepts(inputs[j], n, parse)
    ensures forall j :: 0 <= j < |r.complaints| ==> r.complaints[j] == Complain(inputs[j], parse)
    decreases |inputs|
  {
    if |inputs| == 0 then Pick([], None, 0)
    else
      var raw := inputs[0];
      var rest := Select(n, inputs[1..], parse);
      match parse(raw)
      case None =>
        Pick([InvalidInput(raw)] + rest.complaints, rest.chosen, rest.consumed + 1)
      case Some(i) =>
        if InRange(i, n) then Pick([], Some(Resolve(i, n)), 1)
        else Pick([InvalidIndex(i)] + rest.complaints, rest.chosen, rest.consumed + 1)
  }

  /** A bookmark is opened exactly when some line indexes the list, and then
      it is the one the first such line indexes. */
  lemma SelectOpensIffSomeLineAccepted(n: nat, inputs: seq<string>, parse: ParseInt)
    ensures var r := Select(n, inputs, parse);
      && (r.chosen.Some? <==> exists j :: 0 <= j < |inputs| && Accepts(inputs[j], n, parse))
      && (r.chosen.Some? ==> forall j :: 0 <= j < r.consumed - 1 ==> !Accepts(inputs[j], n, parse))
  {
    var r := Select(n, inputs, parse);
    if r.chosen.None? {
      assert |r.complaints| == |inputs|;
    }
  }

  /** A line that is not a number draws "Invalid input" and the next line is read. */
  lemma NonNumberReprompts(n: nat, raw: string, rest: seq<string>, parse: ParseInt)
    requires parse(raw).None?
    ensures var r := Select(n, [raw] + rest, parse);
      var s := Select(n, rest, parse);
      r == Pick([InvalidInput(raw)] + s.complaints, s.chosen, s.consumed + 1)
  {
    assert ([raw] + rest)[1..] == rest;
  }

  /** A number outside `-n..n-1` draws "Invalid index" and the next line is read. */
  lemma OutOfRangeReprompts(n: nat, raw: string, rest: seq<string>, parse: ParseInt)
    requires parse(raw).Some? && !InRange(parse(raw).value, n)
    ensures var r := Select(n, [raw] + rest, parse);
      var s := Select(n, rest, parse);
      r == Pick([InvalidIndex(parse(raw).value)] + s.complaints, s.chosen, s.consumed + 1)
  {
    assert ([raw] + rest)[1..] == rest;
  }

  /** Negative numbers down to `-n` count from the end of the list, as
      Python indexing does; `-n - 1` and `n` are rejected. */
  lemma NegativeIndexCountsFromEnd(n: nat, k: nat, raw: string, rest: seq<string>, parse: ParseInt)
    requires 0 < k <= n
    requires parse(raw) == Some(-(k as int))
    ensures Select(n, [raw] + rest, parse).chosen == Some(n - k)
    ensures Select(n, [raw] + rest, parse).consumed == 1
  {
  }

  /** One listed line: the number shown and the bookmark it stands for. */
  datatype Listed = Listed(number: nat, bookmark: Bookmark)

  /** The listing printed before the prompt, one line per bookmark in answer order. */
  function Listing(bms: seq<Bookmark>): (r: seq<Listed>)
    ensures |r| == |bms|
    ensures forall i :: 0 <= i < |r| ==> r[i] == Listed(i, bms[i])
  {
    seq(|bms|, i requires 0 <= i < |bms| => Listed(i, bms[i]))
  }

  /** Typing the number a line was listed with opens that line's bookmark. */
  lemma ListedNumberOpensListedBookmark(bms: seq<Bookmark>, i: nat, raw: string, rest: seq<string>, parse: ParseInt)
    requires i < |bms|
    requires parse(raw) == Some(Listing(bms)[i].number as int)
    ensures var r := Select(|bms|, [raw] + rest, parse);
      r.chosen.Some? && bms[r.chosen.value] == Listing(bms)[i].bookmark
  {
  }

  /** A non-number, then an out-of-range number, then a valid one: two
      warnings, then the second of two bookmarks is opened. */
  lemma RejectsThenOpensSecond(parse: ParseInt)
    requires parse("NOT_A_NUMBER") == None
    requires parse("999") == Some(999) && parse("1") == Some(1)
    ensures Select(2, ["NOT_A_NUMBER", "999", "1"], parse)
      == Pick([InvalidInput("NOT_A_NUMBER"), InvalidIndex(999)], Some(1), 3)
  {
    var inputs := ["NOT_A_NUMBER", "999", "1"];
    assert inputs[1..] == ["999", "1"] && inputs[1..][1..] == ["1"] && inputs[1..][1..][1..] == [];
  }
}
