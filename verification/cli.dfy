/** The command-line entry point: a mandatory subcommand, `sync` or `ask`.
    `sync` runs the sync command over the browser registry; `ask` reads a
    query, asks the bookmark chain, lists the answer and lets the user pick
    one bookmark to open. */
module Cli {
  import opened Common
  import opened Models
  import Sync
  import Picker

  datatype Command = SyncCommand | AskCommand

  /** The exit status of an argument-parser usage error. */
  const UsageExit: nat := 2

  /** The subcommand the arguments after the program name select, or the
      usage error's exit status. */
  function ParseCommand(argv: seq<string>): (r: Result<Command, nat>)
    ensures r.Failure? ==> r.error == 2
    ensures r == Success(SyncCommand) <==> argv == ["sync"]
    ensures r == Success(AskCommand) <==> argv == ["ask"]
  {
    if argv == ["sync"] then Success(SyncCommand)
    else if argv == ["ask"] then Success(AskCommand)
    else Failure(UsageExit)
  }

  /** Everything `main` consults besides its arguments: the registry and
      platform the sync command runs on, what each loader yields, the lines
      standard input supplies, whether the bookmark chain reports a usable
      store, what it answers for a query, and how `int()` reads a line. */
  datatype World = World(
    registry: Sync.Registry,
    platform: Sync.Platform,
    load: Sync.Load,
    stdin: seq<string>,
    chainValid: bool,
    answer: string -> seq<Bookmark>,
    parse: Picker.ParseInt)

  /** Why the ask command returned. `InputClosed` is the `EOFError` raised
      when standard input ends before a line is accepted. */
  datatype AskEnd = InputClosed | ChainInvalid | NoResults | Opened

  /** What the ask command did: the query the chain was asked (if it was),
      the listing it printed, the picker's run (if it got that far), and the
      bookmark it opened. */
  datatype AskRun = AskRun(
    askedWith: Option<string>,
    listing: seq<Picker.Listed>,
    pick: Option<Picker.Pick>,
    launched: Option<Bookmark>,
    end: AskEnd)

  /** The ask command: read the query, consult the chain, bail out early on an
      invalid chain or an empty answer, otherwise list and pick. */
  function AskFlow(w: World): (r: AskRun)
    ensures r.launched.Some? <==> r.end == Opened
    ensures r.askedWith.Some? ==> |w.stdin| > 0 && r.askedWith.value == w.stdin[0]
    ensures r.pick.Some? ==> r.askedWith.Some?
  {
    if |w.stdin| == 0 then AskRun(None, [], None, None, InputClosed)
    else
      var query := w.stdin[0];
      if !w.chainValid then AskRun(None, [], None, None, ChainInvalid)
      else
        var bms := w.answer(query);
        if |bms| == 0 then AskRun(Some(query), [], None, None, NoResults)
        else
          var pick := Picker.Select(|bms|, w.stdin[1..], w.parse);
          match pick.chosen
          case None => AskRun(Some(query), Picker.Listing(bms), Some(pick), None, InputClosed)
          case Some(k) => AskRun(Some(query), Picker.Listing(bms), Some(pick), Some(bms[k]), Opened)
  }

  /** What `main` did: a usage error, a sync run, or an ask run. */
  datatype MainRun = UsageError(exitCode: nat) | Synced(sync: Sync.Run) | Asked(ask: AskRun)

  function Main(argv: seq<string>, w: World): (r: MainRun)
    ensures r.UsageError? ==> r.exitCode == 2
  {
    match ParseCommand(argv)
    case Failure(code) => UsageError(code)
    case Success(SyncCommand) => Synced(Sync.Sync(w.registry, w.platform, w.load))
    case Success(AskCommand) => Asked(AskFlow(w))
  }

  /** Exactly one of the two commands runs, chosen by the subcommand; any
      other argument list, the empty one included, is a usage error. */
  lemma DispatchIsExclusive(argv: seq<string>, w: World)
    ensures Main(argv, w).Synced? <==> argv == ["sync"]
    ensures Main(argv, w).Asked? <==> argv == ["ask"]
    ensures Main(argv, w).Synced? ==> Main(argv, w).sync == Sync.Sync(w.registry, w.platform, w.load)
    ensures Main([], w) == UsageError(2)
  {
  }

  /** An invalid chain ends the ask command before the chain is asked,
      before anything is listed, and before any selection is read. */
  lemma InvalidChainNeverAsks(w: World)
    requires |w.stdin| > 0 && !w.chainValid
    ensures Main(["ask"], w) == Asked(AskRun(None, [], None, None, ChainInvalid))
  {
  }

  /** An empty answer ends the ask command without listing or reading a selection. */
  lemma EmptyAnswerOpensNothing(w: World)
    requires |w.stdin| > 0 && w.chainValid && w.answer(w.stdin[0]) == []
    ensures Main(["ask"], w) == Asked(AskRun(Some(w.stdin[0]), [], None, None, NoResults))
  {
  }

  /** With a non-empty answer, the listing numbers every bookmark in answer
      order, and a bookmark is opened exactly when a later input line
      indexes the list; it is then the one the first such line indexes. */
  lemma AnswerIsListedAndPicked(w: World)
    requires |w.stdin| > 0 && w.chainValid && |w.answer(w.stdin[0])| > 0
    ensures var bms := w.answer(w.stdin[0]);
      var r := Main(["ask"], w).ask;
      && r.askedWith == Some(w.stdin[0])
      && |r.listing| == |bms|
      && (forall i :: 0 <= i < |bms| ==> r.listing[i] == Picker.Listed(i, bms[i]))
      && (r.launched.Some? <==>
            exists j :: 1 <= j < |w.stdin| && Picker.Accepts(w.stdin[j], |bms|, w.parse))
      && (r.launched.Some? ==>
            exists j :: 1 <= j < |w.stdin|
              && Picker.Accepts(w.stdin[j], |bms|, w.parse)
              && (forall k :: 1 <= k < j ==> !Picker.Accepts(w.stdin[k], |bms|, w.parse))
              && r.launched.value == bms[Picker.Resolve(w.parse(w.stdin[j]).value, |bms|)])
  {
    var bms := w.answer(w.stdin[0]);
    var inputs := w.stdin[1..];
    var pick := Picker.Select(|bms|, inputs, w.parse);
    Picker.SelectOpensIffSomeLineAccepted(|bms|, inputs, w.parse);
    assert forall j :: 1 <= j < |w.stdin| ==> w.stdin[j] == inputs[j - 1];
    if pick.chosen.Some? {
      var j := pick.consumed;
      assert w.stdin[j] == inputs[j - 1];
    } else {
      forall j | 1 <= j < |w.stdin|
        ensures !Picker.Accepts(w.stdin[j], |bms|, w.parse)
      {
        assert w.stdin[j] == inputs[j - 1];
      }
    }
  }

  /** Asking once and typing `0` opens the first bookmark of the answer. */
  lemma TypingZeroOpensFirst(w: World, query: string)
    requires w.stdin == [query, "0"] && w.parse("0") == Some(0)
    requires w.chainValid && |w.answer(query)| == 2
    ensures Main(["ask"], w).ask.askedWith == Some(query)
    ensures Main(["ask"], w).ask.launched == Some(w.answer(query)[0])
  {
    assert w.stdin[1..] == ["0"];
  }
}
