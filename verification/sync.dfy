/** The sync command: walk the browser registry in order, skip (with a
    warning) every browser that has no configuration for the current
    platform, build each remaining browser's loader from its configured
    keyword arguments, concatenate what the loaders yield, and hand the whole
    batch to the storage layer once. */
module Sync {
  import opened Common

  /** Browser and platform identities, as they appear in log messages. */
  type Browser = string
  type Platform = string

  /** A keyword argument handed to a loader's constructor. Only its presence
      and identity matter here; callables and schemas are opaque tags. */
  datatype Arg = Text(text: string) | Flag(flag: bool) | Opaque(tag: string)

  type Kwargs = map<string, Arg>

  /** The keys the sync command reads from a platform's configuration, and
      the keyword argument it reads before building a loader. */
  const LoaderKey: string := "bookmark_loader"
  const KwargsKey: string := "bookmark_loader_kwargs"
  const FilePathKey: string := "file_path"

  /** One platform's entry for a browser: a dictionary that may or may not
      hold the loader class and the keyword arguments it is built with.
      Building the loader is `loader(**kwargs)`, so a run records the
      configurations it built loaders from. */
  datatype LoaderConfig = LoaderConfig(loader: Option<string>, kwargs: Option<Kwargs>)

  /** The configuration holds everything the sync command reads from it. */
  predicate Complete(cfg: LoaderConfig) {
    cfg.loader.Some? && cfg.kwargs.Some? && FilePathKey in cfg.kwargs.value
  }

  /** The key whose lookup raises `KeyError`, in the order the lookups
      happen: the kwargs, then `file_path` inside them, then the loader. */
  function Missing(cfg: LoaderConfig): (m: Option<string>)
    ensures m.None? <==> Complete(cfg)
    ensures m == Some(KwargsKey) <==> cfg.kwargs.None?
    ensures m == Some(FilePathKey) <==> cfg.kwargs.Some? && FilePathKey !in cfg.kwargs.value
    ensures m == Some(LoaderKey) <==> cfg.kwargs.Some? && FilePathKey in cfg.kwargs.value && cfg.loader.None?
  {
    if cfg.kwargs.None? then Some(KwargsKey)
    else if FilePathKey !in cfg.kwargs.value then Some(FilePathKey)
    else if cfg.loader.None? then Some(LoaderKey)
    else None
  }

  /** One registry entry: a browser and its per-platform configurations. */
  datatype Entry = Entry(browser: Browser, platforms: map<Platform, LoaderConfig>)

  /** The registry, in its iteration order. */
  type Registry = seq<Entry>

  /** A loaded document. Its content is whatever the loader produced. */
  datatype Document = Document(pageContent: string, metadata: map<string, string>)

  /** What `loader(**kwargs).lazy_load()` yields for a configuration; the
      loaders read files, so the model leaves them uninterpreted. */
  type Load = LoaderConfig -> seq<Document>

  /** The `KeyError` raised when a configuration lacks a key the sync
      command reads. */
  datatype SyncError = MissingKey(browser: Browser, key: string)

  /** The observable effects of a sync run: the accumulated documents, the
      warnings logged, the loaders built, every batch handed to
      `store_documents`, and the error that escaped, if any. */
  datatype Run = Run(
    docs: seq<Document>,
    warnings: seq<string>,
    calls: seq<LoaderConfig>,
    stored: seq<seq<Document>>,
    failure: Option<SyncError>)

  const Fresh: Run := Run([], [], [], [], None)

  /** The warning logged for a browser with no configuration for `p`: it
      names the platform, then the browser. */
  function UnsupportedWarning(p: Platform, b: Browser): (w: string)
    ensures |w| == 9 + |p| + 27 + |b|
    ensures w[..9] == "Platform " && w[9..9 + |p|] == p
    ensures w[9 + |p|..9 + |p| + 27] == " not supported for browser "
    ensures w[|w| - |b|..] == b
  {
    "Platform " + p + " not supported for browser " + b
  }

  /** Processing of one registry entry, starting from the effects so far.
      After an escaped error nothing changes; otherwise the entry adds
      exactly one warning, or exactly one loader and its output, or the
      error, and what was recorded before is kept as a prefix. */
  function Step(s: Run, e: Entry, p: Platform, load: Load): (r: Run)
    ensures s.failure.Some? ==> r == s
    ensures r.stored == s.stored
    ensures s.warnings <= r.warnings && s.calls <= r.calls && s.docs <= r.docs
    ensures s.failure.None? && r.failure.None? ==>
      |r.warnings| + |r.calls| == |s.warnings| + |s.calls| + 1
    ensures s.failure.None? && r.failure.Some? ==>
      p in e.platforms && !Complete(e.platforms[p]) && r.failure.value.browser == e.browser
      && r.warnings == s.warnings && r.calls == s.calls && r.docs == s.docs
    ensures |r.calls| > |s.calls| ==> p in e.platforms && r.calls == s.calls + [e.platforms[p]] && r.docs == s.docs + load(e.platforms[p])
  {
    if s.failure.Some? then s
    else if p !in e.platforms then
      s.(warnings := s.warnings + [UnsupportedWarning(p, e.browser)])
    else
      var cfg := e.platforms[p];
      if Missing(cfg).Some? then
        s.(failure := Some(MissingKey(e.browser, Missing(cfg).value)))
      else
        s.(docs := s.docs + load(cfg), calls := s.calls + [cfg])
  }

  /** The loop of the sync command, run over the entries of `reg` in order. */
  function Walk(reg: Registry, p: Platform, load: Load): (r: Run)
    ensures r.stored == []
    decreases |reg|
  {
    if |reg| == 0 then Fresh
    else Step(Walk(reg[..|reg| - 1], p, load), reg[|reg| - 1], p, load)
  }

  /** The sync command: the loop, then one call to `store_documents` with the
      whole accumulated list, unless an error escaped the loop. */
  function Sync(reg: Registry, p: Platform, load: Load): (r: Run)
    ensures r.failure.None? ==> r.stored == [r.docs]
    ensures r.failure.Some? ==> r.stored == []
  {
    var w := Walk(reg, p, load);
    if w.failure.None? then w.(stored := [w.docs]) else w
  }

  // ---------------------------------------------------------------------------
  // Reference definitions: what the run should amount to, entry by entry.

  predicate Supports(e: Entry, p: Platform) {
    p in e.platforms
  }

  /** Every configuration for `p` names its loader class, its kwargs, and
      the file its loader reads. */
  predicate WellFormed(reg: Registry, p: Platform) {
    forall i :: 0 <= i < |reg| && Supports(reg[i], p) ==> Complete(reg[i].platforms[p])
  }

  /** The loaders the registry asks for on `p`, in registry order. */
  function Plan(reg: Registry, p: Platform): seq<LoaderConfig>
    decreases |reg|
  {
    if |reg| == 0 then []
    else (if Supports(reg[0], p) then [reg[0].platforms[p]] else []) + Plan(reg[1..], p)
  }

  /** One warning per browser without a configuration for `p`, in registry order. */
  function Unsupported(reg: Registry, p: Platform): seq<string>
    decreases |reg|
  {
    if |reg| == 0 then []
    else (if Supports(reg[0], p) then [] else [UnsupportedWarning(p, reg[0].browser)]) + Unsupported(reg[1..], p)
  }

  /** The concatenation of the loaders' outputs, each kept in its own order. */
  function LoadAll(calls: seq<LoaderConfig>, load: Load): seq<Document>
    decreases |calls|
  {
    if |calls| == 0 then [] else load(calls[0]) + LoadAll(calls[1..], load)
  }

  lemma {:induction false} PlanAppend(a: Registry, b: Registry, p: Platform)
    ensures Plan(a + b, p) == Plan(a, p) + Plan(b, p)
    decreases |a|
  {
    if |a| > 0 {
      assert (a + b)[1..] == a[1..] + b;
      PlanAppend(a[1..], b, p);
    } else {
      assert a + b == b;
    }
  }

  lemma {:induction false} UnsupportedAppend(a: Registry, b: Registry, p: Platform)
    ensures Unsupported(a + b, p) == Unsupported(a, p) + Unsupported(b, p)
    decreases |a|
  {
    if |a| > 0 {
      assert (a + b)[1..] == a[1..] + b;
      UnsupportedAppend(a[1..], b, p);
    } else {
      assert a + b == b;
    }
  }

  lemma {:induction false} LoadAllAppend(a: seq<LoaderConfig>, b: seq<LoaderConfig>, load: Load)
    ensures LoadAll(a + b, load) == LoadAll(a, load) + LoadAll(b, load)
    decreases |a|
  {
    if |a| > 0 {
      assert (a + b)[1..] == a[1..] + b;
      LoadAllAppend(a[1..], b, load);
    } else {
      assert a + b == b;
    }
  }

  /** Every entry is either loaded or warned about, never both. */
  lemma {:induction false} EachEntryOneBranch(reg: Registry, p: Platform)
    ensures |Plan(reg, p)| + |Unsupported(reg, p)| == |reg|
    decreases |reg|
  {
    if |reg| > 0 {
      EachEntryOneBranch(reg[1..], p);
    }
  }

  /** Without a malformed configuration, the loop builds exactly the planned
      loaders, warns exactly about the unsupported browsers, and collects
      exactly the planned loaders' output. */
  lemma {:induction false} WalkFollowsPlan(reg: Registry, p: Platform, load: Load)
    requires WellFormed(reg, p)
    ensures Walk(reg, p, load)
      == Run(LoadAll(Plan(reg, p), load), Unsupported(reg, p), Plan(reg, p), [], None)
    decreases |reg|
  {
    if |reg| > 0 {
      var init, e := reg[..|reg| - 1], reg[|reg| - 1];
      assert reg == init + [e];
      assert WellFormed(init, p) by {
        forall i | 0 <= i < |init| && Supports(init[i], p)
          ensures Complete(init[i].platforms[p])
        {
          assert init[i] == reg[i];
        }
      }
      WalkFollowsPlan(init, p, load);
      PlanAppend(init, [e], p);
      UnsupportedAppend(init, [e], p);
      LoadAllAppend(Plan(init, p), Plan([e], p), load);
      assert [e][1..] == [];
    }
  }

  /** Once an error has escaped, later entries change nothing. */
  lemma {:induction false} FailureSticks(reg: Registry, j: nat, p: Platform, load: Load)
    requires j <= |reg|
    requires Walk(reg[..j], p, load).failure.Some?
    ensures Walk(reg, p, load) == Walk(reg[..j], p, load)
    decreases |reg|
  {
    if j < |reg| {
      var init := reg[..|reg| - 1];
      assert init[..j] == reg[..j];
      FailureSticks(init, j, p, load);
    } else {
      assert reg[..j] == reg;
    }
  }

  /** A well-formed registry completes: the stored batch is the concatenation
      of every supported browser's loader output in registry order, the
      warnings name every unsupported browser in registry order, and each
      entry takes exactly one of the two branches. */
  lemma SyncCompletes(reg: Registry, p: Platform, load: Load)
    requires WellFormed(reg, p)
    ensures var r := Sync(reg, p, load);
      && r.failure == None
      && r.calls == Plan(reg, p)
      && r.warnings == Unsupported(reg, p)
      && r.docs == LoadAll(Plan(reg, p), load)
      && r.stored == [LoadAll(Plan(reg, p), load)]
      && |r.warnings| + |r.calls| == |reg|
  {
    WalkFollowsPlan(reg, p, load);
    EachEntryOneBranch(reg, p);
  }

  /** The first incomplete supported configuration raises before its loader
      is built, naming the first key it lacks: the loaders of earlier
      browsers were built, no later browser is visited, and
      `store_documents` is never called. */
  lemma SyncFailsAtFirstIncomplete(reg: Registry, k: nat, p: Platform, load: Load)
    requires k < |reg| && Supports(reg[k], p)
    requires !Complete(reg[k].platforms[p])
    requires WellFormed(reg[..k], p)
    ensures var r := Sync(reg, p, load);
      && r.failure == Some(MissingKey(reg[k].browser, Missing(reg[k].platforms[p]).value))
      && r.failure.value.key in {KwargsKey, FilePathKey, LoaderKey}
      && r.calls == Plan(reg[..k], p)
      && r.warnings == Unsupported(reg[..k], p)
      && r.stored == []
  {
    WalkFollowsPlan(reg[..k], p, load);
    assert reg[..k + 1][..k] == reg[..k];
    FailureSticks(reg, k + 1, p, load);
  }

  /** The completed runs are exactly those of well-formed registries. */
  lemma SyncCompletesIffWellFormed(reg: Registry, p: Platform, load: Load)
    ensures Sync(reg, p, load).failure.None? <==> WellFormed(reg, p)
  {
    if WellFormed(reg, p) {
      SyncCompletes(reg, p, load);
    } else {
      var k := FirstMalformed(reg, p);
      SyncFailsAtFirstIncomplete(reg, k, p, load);
    }
  }

  /** The index of the first supported entry whose configuration is incomplete. */
  function FirstMalformed(reg: Registry, p: Platform): (k: nat)
    requires !WellFormed(reg, p)
    ensures k < |reg| && Supports(reg[k], p) && !Complete(reg[k].platforms[p])
    ensures WellFormed(reg[..k], p)
    decreases |reg|
  {
    if Supports(reg[0], p) && !Complete(reg[0].platforms[p]) then 0
    else
      assert !WellFormed(reg[1..], p) by {
        var i :| 0 <= i < |reg| && Supports(reg[i], p) && !Complete(reg[i].platforms[p]);
        assert i > 0 && reg[1..][i - 1] == reg[i];
      }
      var k := FirstMalformed(reg[1..], p);
      var pre, tail := reg[..k + 1], reg[1..][..k];
      assert WellFormed(pre, p) by {
        forall i | 0 <= i < k + 1 && Supports(pre[i], p)
          ensures Complete(pre[i].platforms[p])
        {
          if i > 0 {
            assert pre[i] == tail[i - 1];
          }
        }
      }
      1 + k
  }

  /** A browser without a configuration for the platform adds exactly one
      warning and no documents, and every later browser is still processed. */
  lemma UnsupportedEntryIsolated(a: Registry, e: Entry, b: Registry, p: Platform, load: Load)
    requires !Supports(e, p)
    requires WellFormed(a + [e] + b, p)
    ensures var r := Sync(a + [e] + b, p, load);
      && r.warnings == Unsupported(a, p) + [UnsupportedWarning(p, e.browser)] + Unsupported(b, p)
      && r.calls == Plan(a, p) + Plan(b, p)
      && r.docs == LoadAll(Plan(a, p), load) + LoadAll(Plan(b, p), load)
  {
    SyncSplit(a, e, b, p, load);
    SingleEntry(e, p);
    assert Plan(a, p) + [] == Plan(a, p);
    assert LoadAll([], load) == [];
    assert LoadAll(Plan(a, p), load) + [] == LoadAll(Plan(a, p), load);
  }

  /** A supported browser adds no warning and exactly the output of one
      loader, built with exactly the kwargs configured for the platform;
      every later browser is still processed. */
  lemma SupportedEntryContribution(a: Registry, e: Entry, b: Registry, p: Platform, load: Load)
    requires Supports(e, p)
    requires WellFormed(a + [e] + b, p)
    ensures var r := Sync(a + [e] + b, p, load);
      && r.warnings == Unsupported(a, p) + Unsupported(b, p)
      && r.calls == Plan(a, p) + [e.platforms[p]] + Plan(b, p)
      && r.docs == LoadAll(Plan(a, p), load) + load(e.platforms[p]) + LoadAll(Plan(b, p), load)
  {
    SyncSplit(a, e, b, p, load);
    SingleEntry(e, p);
    var call := e.platforms[p];
    assert Unsupported(a, p) + [] == Unsupported(a, p);
    assert LoadAll([call], load) == load(call) + LoadAll([], load);
    assert load(call) + [] == load(call);
  }

  /** The effects of a well-formed run split around any one entry. */
  lemma SyncSplit(a: Registry, e: Entry, b: Registry, p: Platform, load: Load)
    requires WellFormed(a + [e] + b, p)
    ensures var r := Sync(a + [e] + b, p, load);
      && r.warnings == Unsupported(a, p) + Unsupported([e], p) + Unsupported(b, p)
      && r.calls == Plan(a, p) + Plan([e], p) + Plan(b, p)
      && r.docs == LoadAll(Plan(a, p), load) + LoadAll(Plan([e], p), load) + LoadAll(Plan(b, p), load)
  {
    SyncCompletes(a + [e] + b, p, load);
    EntryAppend(a, e, b, p);
    LoadAllAppend(Plan(a, p) + Plan([e], p), Plan(b, p), load);
    LoadAllAppend(Plan(a, p), Plan([e], p), load);
  }

  lemma SingleEntry(e: Entry, p: Platform)
    ensures Plan([e], p) == (if Supports(e, p) then [e.platforms[p]] else [])
    ensures Unsupported([e], p) == (if Supports(e, p) then [] else [UnsupportedWarning(p, e.browser)])
  {
    assert [e][1..] == [];
  }

  /** Plan and warnings of a registry split around one entry. */
  lemma EntryAppend(a: Registry, e: Entry, b: Registry, p: Platform)
    ensures Plan(a + [e] + b, p) == Plan(a, p) + Plan([e], p) + Plan(b, p)
    ensures Unsupported(a + [e] + b, p) == Unsupported(a, p) + Unsupported([e], p) + Unsupported(b, p)
  {
    PlanAppend(a + [e], b, p);
    PlanAppend(a, [e], p);
    UnsupportedAppend(a + [e], b, p);
    UnsupportedAppend(a, [e], p);
  }

  /** The sync loop as a `for` over the registry whose
      `try`/`except KeyError`/`else` skips unsupported browsers, whose
      uncaught lookups of the kwargs, `file_path` and the loader class end
      the command, followed by one `store_documents` call. It agrees with
      `Sync`. */
  method RunSync(reg: Registry, p: Platform, load: Load) returns (r: Run)
    ensures r == Sync(reg, p, load)
  {
    var docs: seq<Document> := [];
    var warnings: seq<string> := [];
    var calls: seq<LoaderConfig> := [];
    var i := 0;
    while i < |reg|
      invariant 0 <= i <= |reg|
      invariant Walk(reg[..i], p, load) == Run(docs, warnings, calls, [], None)
    {
      var e := reg[i];
      assert reg[..i + 1][..i] == reg[..i];
      if p !in e.platforms {
        warnings := warnings + [UnsupportedWarning(p, e.browser)];
        i := i + 1;
        continue;
      }
      var cfg := e.platforms[p];
      if cfg.kwargs.None? {
        FailureSticks(reg, i + 1, p, load);
        return Run(docs, warnings, calls, [], Some(MissingKey(e.browser, KwargsKey)));
      }
      if FilePathKey !in cfg.kwargs.value {
        FailureSticks(reg, i + 1, p, load);
        return Run(docs, warnings, calls, [], Some(MissingKey(e.browser, FilePathKey)));
      }
      if cfg.loader.None? {
        FailureSticks(reg, i + 1, p, load);
        return Run(docs, warnings, calls, [], Some(MissingKey(e.browser, LoaderKey)));
      }
      calls := calls + [cfg];
      docs := docs + load(cfg);
      i := i + 1;
    }
    assert reg[..i] == reg;
    r := Run(docs, warnings, calls, [docs], None);
  }
}
