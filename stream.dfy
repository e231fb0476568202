/**
 * The `MarketStream` playback engine: a generator over the NDJSON lines of
 * the stream asset, a status and a pointer counting processed events. While
 * playing, each loop iteration pulls one line, parses it, applies it to the
 * database and advances the pointer; an exhausted generator finishes the
 * stream and any error pauses it.
 */
module Stream {
  import opened Results
  import opened Events
  import opened OrderBookOps
  import Ndjson

  datatype StreamState = Playing | Paused | Finished

  /**
   * What the async generator `readNdjsonLines(uri)` will still yield:
   * `lines[next..]`. Its body only runs on the first `next()`, so a missing
   * file is a throw still pending (`fileMissing`); after throwing, the
   * generator is done.
   */
  datatype LineGenerator = LineGenerator(lines: seq<string>, next: nat, fileMissing: bool)

  predicate GeneratorValid(g: LineGenerator)
  {
    g.next <= |g.lines| && (g.fileMissing ==> g.lines == [] && g.next == 0)
  }

  /** The generator after it has thrown or run out: it yields nothing more. */
  function Exhausted(g: LineGenerator): (r: LineGenerator)
  {
    LineGenerator(g.lines, |g.lines|, false)
  }

  /** The stream file behind the asset URI: whether it exists and the chunks its reader delivers. */
  datatype NdjsonFile = NdjsonFile(present: bool, chunks: seq<string>)

  /** Resolving the bundled asset: the download throws or yields no local URI, or it names a file. */
  datatype AssetLookup = AssetUnavailable | AssetAt(file: NdjsonFile)

  /** The generator `load` installs for an asset, or none when resolving the asset fails. */
  function LoadOutcome(asset: AssetLookup): (r: Option<LineGenerator>)
    ensures r.Some? ==> GeneratorValid(r.value) && r.value.next == 0
    ensures r.None? <==> asset.AssetUnavailable?
    ensures r.Some? ==> (r.value.fileMissing <==> !asset.file.present)
    ensures r.Some? && asset.file.present ==> r.value.lines == Ndjson.Lines(Ndjson.Concat(asset.file.chunks))
  {
    match asset
    case AssetUnavailable => None
    case AssetAt(f) =>
      if f.present then Some(LineGenerator(Ndjson.Lines(Ndjson.Concat(f.chunks)), 0, false))
      else Some(LineGenerator([], 0, true))
  }

  /**
   * `readNdjsonLines(uri)` for a resolved asset: the generator over the
   * file's lines, not started yet; for a missing file, one whose first
   * `next()` throws.
   */
  method OpenGenerator(file: NdjsonFile) returns (g: LineGenerator)
    ensures Some(g) == LoadOutcome(AssetAt(file))
  {
    if file.present {
      var lines := Ndjson.ReadNdjsonLines(file.chunks);
      g := LineGenerator(lines, 0, false);
    } else {
      g := LineGenerator([], 0, true);
    }
  }

  /** Every line a loaded generator yields is non-empty, so the `if (value)` guard always holds. */
  lemma LoadedLinesNonEmpty(asset: AssetLookup, i: nat)
    requires LoadOutcome(asset).Some? && i < |LoadOutcome(asset).value.lines|
    ensures LoadOutcome(asset).value.lines[i] != ""
  {
    Ndjson.LinesAreTrimmed(Ndjson.Concat(asset.file.chunks), i);
  }

  // ---------------------------------------------------------------------
  // Processing lines: the specification of the play loop
  // ---------------------------------------------------------------------

  /** Why processing a line throws: `JSON.parse` rejects it, or a statement fails. */
  datatype PlayError = ParseError | StoreError(error: ApplyError)

  /** `processEvent(db, JSON.parse(line))` on a store; `decode` is `JSON.parse`, `None` when it throws. */
  function ProcessLine(s: Store, line: string, decode: string -> Option<StreamEvent>): Result<Store, PlayError>
  {
    match decode(line)
    case None => Failure(ParseError)
    case Some(e) =>
      match Apply(s, e)
      case Failure(err) => Failure(StoreError(err))
      case Success(t) => Success(t)
  }

  /**
   * The result of processing lines in order until one throws: the store,
   * how many lines were applied, how many were pulled from the generator,
   * and whether the last one pulled threw.
   */
  datatype Drained = Drained(store: Store, applied: nat, consumed: nat, failed: bool)

  function Shift(d: Drained, applied: nat, consumed: nat): Drained
  {
    Drained(d.store, d.applied + applied, d.consumed + consumed, d.failed)
  }

  /** Lines processed one by one as the play loop does, stopping after the first that throws. */
  function Drain(s: Store, lines: seq<string>, decode: string -> Option<StreamEvent>): Drained
    decreases |lines|
  {
    if lines == [] then Drained(s, 0, 0, false)
    else if lines[0] == "" then Shift(Drain(s, lines[1..], decode), 0, 1)
    else match ProcessLine(s, lines[0], decode)
      case Failure(_) => Drained(s, 0, 1, true)
      case Success(t) => Shift(Drain(t, lines[1..], decode), 1, 1)
  }

  /**
   * Only pulled lines count and each counts at most once; a run that does
   * not fail pulls every line; a failing run pulls at least the line that
   * failed.
   */
  lemma {:induction false} DrainCounts(s: Store, lines: seq<string>, decode: string -> Option<StreamEvent>)
    ensures Drain(s, lines, decode).applied <= Drain(s, lines, decode).consumed <= |lines|
    ensures !Drain(s, lines, decode).failed ==> Drain(s, lines, decode).consumed == |lines|
    ensures Drain(s, lines, decode).failed ==> Drain(s, lines, decode).applied < Drain(s, lines, decode).consumed
    decreases |lines|
  {
    if lines != [] {
      if lines[0] == "" {
        DrainCounts(s, lines[1..], decode);
      } else if ProcessLine(s, lines[0], decode).Success? {
        DrainCounts(ProcessLine(s, lines[0], decode).value, lines[1..], decode);
      }
    }
  }

  /**
   * A failing run stops at its last pulled line: the lines before it were
   * processed without error into the final store, and that line fails on
   * it, so it is neither applied nor counted.
   */
  lemma {:induction false} DrainStopsAtFailure(s: Store, lines: seq<string>, decode: string -> Option<StreamEvent>)
    requires Drain(s, lines, decode).failed
    ensures var d := Drain(s, lines, decode);
      && 1 <= d.consumed <= |lines|
      && Drain(s, lines[..d.consumed - 1], decode) == Drained(d.store, d.applied, d.consumed - 1, false)
      && lines[d.consumed - 1] != ""
      && ProcessLine(d.store, lines[d.consumed - 1], decode).Failure?
    decreases |lines|
  {
    var d := Drain(s, lines, decode);
    if lines[0] == "" {
      DrainStopsAtFailure(s, lines[1..], decode);
      var d' := Drain(s, lines[1..], decode);
      assert lines[..d.consumed - 1] == [lines[0]] + lines[1..][..d'.consumed - 1];
      assert lines[..d.consumed - 1][1..] == lines[1..][..d'.consumed - 1];
    } else if ProcessLine(s, lines[0], decode).Success? {
      var t := ProcessLine(s, lines[0], decode).value;
      DrainStopsAtFailure(t, lines[1..], decode);
      var d' := Drain(t, lines[1..], decode);
      assert lines[..d.consumed - 1] == [lines[0]] + lines[1..][..d'.consumed - 1];
      assert lines[..d.consumed - 1][1..] == lines[1..][..d'.consumed - 1];
    } else {
      assert lines[..0] == [];
    }
  }

  /**
   * Pausing and resuming does not change the outcome: a run over `a + b`
   * is a run over `a` followed by a run over `b` from where it stopped,
   * provided nothing failed in `a`.
   */
  lemma {:induction false} DrainAppend(s: Store, a: seq<string>, b: seq<string>, decode: string -> Option<StreamEvent>)
    requires !Drain(s, a, decode).failed
    ensures Drain(s, a + b, decode) == Shift(Drain(Drain(s, a, decode).store, b, decode), Drain(s, a, decode).applied, |a|)
    decreases |a|
  {
    if a == [] {
      assert a + b == b;
    } else {
      assert (a + b)[0] == a[0] && (a + b)[1..] == a[1..] + b;
      if a[0] == "" {
        DrainAppend(s, a[1..], b, decode);
        DrainCounts(s, a[1..], decode);
      } else {
        var t := ProcessLine(s, a[0], decode).value;
        DrainAppend(t, a[1..], b, decode);
        DrainCounts(t, a[1..], decode);
      }
    }
  }

  /** The events the lines decode to, when every line is non-empty and parses. */
  function DecodeAll(lines: seq<string>, decode: string -> Option<StreamEvent>): (es: seq<StreamEvent>)
    requires forall i :: 0 <= i < |lines| ==> decode(lines[i]).Some?
    ensures |es| == |lines|
    ensures forall i :: 0 <= i < |lines| ==> decode(lines[i]) == Some(es[i])
    decreases |lines|
  {
    if lines == [] then []
    else [decode(lines[0]).value] + DecodeAll(lines[1..], decode)
  }

  /**
   * Line-at-a-time playback and batch playback agree: when every line is
   * non-empty and parses and the events apply without error, the play loop
   * ends with the store the left fold of the applier gives, every line applied.
   */
  lemma {:induction false} DrainAgreesWithApplyAll(s: Store, lines: seq<string>, decode: string -> Option<StreamEvent>)
    requires forall i :: 0 <= i < |lines| ==> lines[i] != "" && decode(lines[i]).Some?
    requires ApplyAll(s, DecodeAll(lines, decode)).Success?
    ensures Drain(s, lines, decode) == Drained(ApplyAll(s, DecodeAll(lines, decode)).value, |lines|, |lines|, false)
    decreases |lines|
  {
    if lines != [] {
      var es := DecodeAll(lines, decode);
      assert es[1..] == DecodeAll(lines[1..], decode);
      var t := Apply(s, es[0]).value;
      assert ProcessLine(s, lines[0], decode) == Success(t);
      DrainAgreesWithApplyAll(t, lines[1..], decode);
    }
  }

  // ---------------------------------------------------------------------
  // Pacing
  // ---------------------------------------------------------------------

  /** The target delay between iterations at speed 1, in milliseconds. */
  const BaseDelay: real := 50.0

  /** `Math.max(0, baseDelay / speed - elapsed)`: the wait after an iteration that took `elapsed` ms. */
  function PacingWait(speed: real, elapsed: real): (w: real)
    requires speed > 0.0
    ensures 0.0 <= w
    ensures 0.0 <= elapsed ==> w <= BaseDelay / speed
    ensures w == 0.0 || w == BaseDelay / speed - elapsed
    ensures elapsed < BaseDelay / speed ==> w + elapsed == BaseDelay / speed
  {
    var target := BaseDelay / speed;
    if target - elapsed > 0.0 then target - elapsed else 0.0
  }

  // ---------------------------------------------------------------------
  // One iteration of the play loop, on values
  // ---------------------------------------------------------------------

  /** The engine's fields as a value. */
  datatype Engine = Engine(generator: Option<LineGenerator>, status: StreamState, pointer: nat)

  predicate EngineValid(e: Engine)
  {
    e.generator.Some? ==> GeneratorValid(e.generator.value)
  }

  /** How many more iterations can pull something from the generator. */
  function RemainingOf(e: Engine): nat
    requires EngineValid(e)
  {
    match e.generator
    case None => 0
    case Some(g) => |g.lines| - g.next + (if g.fileMissing then 1 else 0)
  }

  /** The engine and the store after an iteration, and whether the loop goes on. */
  datatype Stepped = Stepped(engine: Engine, store: Store, more: bool)

  /**
   * One iteration of the loop of `play`; `more` is false where it breaks.
   * With no generator it breaks and the status stays `Playing`. A pending
   * "file not found" pauses; an exhausted generator finishes. A
   * non-empty line that fails to parse or apply pauses: it is consumed
   * but not counted. Any other line is consumed, and counted when applied.
   */
  function StepEngine(e: Engine, s: Store, decode: string -> Option<StreamEvent>): (r: Stepped)
    requires EngineValid(e) && e.status == Playing
    ensures EngineValid(r.engine)
    ensures r.engine.pointer == e.pointer || (r.engine.pointer == e.pointer + 1 && r.more)
    ensures r.more ==> r.engine.status == Playing && RemainingOf(r.engine) < RemainingOf(e)
    ensures r.engine.status == Paused ==> r.engine.pointer == e.pointer && r.store == s
    ensures r.engine.status == Finished ==>
              && r.engine.generator.Some? && r.engine.generator.value.next == |r.engine.generator.value.lines|
              && r.engine.pointer == e.pointer && r.store == s
    ensures !r.more && r.engine.status == Playing <==> e.generator.None?
    ensures e.generator.None? ==> r == Stepped(e, s, false)
  {
    match e.generator
    case None => Stepped(e, s, false)
    case Some(g) =>
      if g.fileMissing then Stepped(e.(generator := Some(Exhausted(g)), status := Paused), s, false)
      else if g.next == |g.lines| then Stepped(e.(status := Finished), s, false)
      else
        var advanced := e.(generator := Some(g.(next := g.next + 1)));
        var line := g.lines[g.next];
        if line == "" then Stepped(advanced, s, true)
        else match ProcessLine(s, line, decode)
          case Failure(_) => Stepped(advanced.(status := Paused), s, false)
          case Success(t) => Stepped(advanced.(pointer := e.pointer + 1), t, true)
  }

  /**
   * Where `play` ends when its loop starts from `e0` on store `s0`: with no
   * generator, where it started; with a missing file, paused with the
   * generator done; otherwise as `Drain` over the lines left: paused after
   * a failing line, finished when all were pulled.
   */
  function PlayOutcome(e0: Engine, s0: Store, decode: string -> Option<StreamEvent>): (r: Stepped)
    requires EngineValid(e0) && e0.status == Playing
    ensures !r.more && r.engine.pointer >= e0.pointer
    ensures e0.generator.Some? ==> r.engine.status != Playing
  {
    match e0.generator
    case None => Stepped(e0, s0, false)
    case Some(g0) =>
      if g0.fileMissing then Stepped(Engine(Some(Exhausted(g0)), Paused, e0.pointer), s0, false)
      else
        var d := Drain(s0, g0.lines[g0.next..], decode);
        Stepped(Engine(Some(g0.(next := g0.next + d.consumed)), if d.failed then Paused else Finished,
                       e0.pointer + d.applied),
                d.store, false)
  }

  /**
   * The loop invariant of `play` started from `e0` on `s0`: in the engine
   * `e` and store `s` reached so far, the lines consumed and the lines left
   * add up to one run of `Drain`.
   */
  ghost predicate Accounted(e0: Engine, s0: Store, e: Engine, s: Store, decode: string -> Option<StreamEvent>)
  {
    match e0.generator
    case None => e.generator == None && e.pointer == e0.pointer && s == s0
    case Some(g0) =>
      if g0.fileMissing then e.generator == e0.generator && e.pointer == e0.pointer && s == s0
      else
        && e.generator.Some? && e.generator.value.lines == g0.lines && !e.generator.value.fileMissing
        && g0.next <= e.generator.value.next <= |g0.lines|
        && e0.pointer <= e.pointer
        && Drain(s0, g0.lines[g0.next..], decode)
           == Shift(Drain(s, g0.lines[e.generator.value.next..], decode),
                    e.pointer - e0.pointer, e.generator.value.next - g0.next)
  }

  /**
   * An iteration keeps the account, and the iteration that breaks leaves
   * the engine and the store at `PlayOutcome`.
   */
  lemma StepKeepsAccount(e0: Engine, s0: Store, e: Engine, s: Store, decode: string -> Option<StreamEvent>)
    requires EngineValid(e0) && e0.status == Playing && EngineValid(e) && e.status == Playing
    requires Accounted(e0, s0, e, s, decode)
    ensures var r := StepEngine(e, s, decode);
      && (r.more ==> Accounted(e0, s0, r.engine, r.store, decode))
      && (!r.more ==> r == PlayOutcome(e0, s0, decode))
  {
    match e0.generator
    case None =>
    case Some(g0) =>
      if !g0.fileMissing {
        var g := e.generator.value;
        if g.next < |g.lines| {
          PullKeepsAccount(e0, s0, e, s, decode);
        } else {
          assert g0.lines[g.next..] == [];
        }
      }
  }

  /** The account step for an iteration that pulls a line. */
  lemma PullKeepsAccount(e0: Engine, s0: Store, e: Engine, s: Store, decode: string -> Option<StreamEvent>)
    requires EngineValid(e0) && e0.status == Playing && EngineValid(e) && e.status == Playing
    requires e0.generator.Some? && !e0.generator.value.fileMissing
    requires Accounted(e0, s0, e, s, decode)
    requires e.generator.value.next < |e.generator.value.lines|
    ensures var r := StepEngine(e, s, decode);
      && (r.more ==> Accounted(e0, s0, r.engine, r.store, decode))
      && (!r.more ==> r == PlayOutcome(e0, s0, decode))
  {
    var g0 := e0.generator.value;
    var g := e.generator.value;
    var left := g0.lines[g.next..];
    assert left[0] == g.lines[g.next] && left[1..] == g0.lines[g.next + 1..];
  }

  // ---------------------------------------------------------------------
  // The engine object
  // ---------------------------------------------------------------------

  class MarketStream {
    var generator: Option<LineGenerator>
    var status: StreamState
    var pointer: nat

    ghost predicate Valid()
      reads this
    {
      generator.Some? ==> GeneratorValid(generator.value)
    }

    constructor ()
      ensures Valid() && generator == None && status == Paused && pointer == 0
    {
      generator := None;
      status := Paused;
      pointer := 0;
    }

    function Snapshot(): Engine
      reads this
    {
      Engine(generator, status, pointer)
    }

    function IsReady(): bool
      reads this
    {
      generator.Some?
    }

    function IsPlaying(): bool
      reads this
    {
      status == Playing
    }

    function State(): StreamState
      reads this
    {
      status
    }

    function EventCount(): nat
      reads this
    {
      pointer
    }

    /** Not implemented in the source: it always reports 0. */
    function Progress(): real
    {
      0.0
    }

    /**
     * `load`: returns at once when a generator exists; otherwise resolves
     * the asset and installs the line generator, or leaves the engine not
     * ready when resolving fails.
     */
    method Load(asset: AssetLookup)
      requires Valid()
      modifies this
      ensures Valid()
      ensures status == old(status) && pointer == old(pointer)
      ensures generator == if old(generator).Some? then old(generator) else LoadOutcome(asset)
      ensures old(generator).None? ==> (IsReady() <==> asset.AssetAt?)
    {
      if generator.Some? {
        return;
      }
      match asset
      case AssetUnavailable =>
      case AssetAt(file) =>
        var g := OpenGenerator(file);
        generator := Some(g);
    }

    /** One iteration of the play loop, as `StepEngine` states it; `more` is false where the source breaks. */
    method Step(db: Database, decode: string -> Option<StreamEvent>) returns (more: bool)
      requires Valid() && status == Playing
      modifies this, db
      ensures Valid()
      ensures Stepped(Snapshot(), db.Contents(), more) == StepEngine(old(Snapshot()), old(db.Contents()), decode)
    {
      if generator.None? {
        return false;
      }
      var g := generator.value;
      if g.fileMissing {
        generator := Some(Exhausted(g));
        status := Paused;
        return false;
      }
      if g.next == |g.lines| {
        status := Finished;
        return false;
      }
      var value := g.lines[g.next];
      generator := Some(g.(next := g.next + 1));
      if value != "" {
        var parsed := decode(value);
        if parsed.None? {
          status := Paused;
          return false;
        }
        var err := db.ProcessStreamEvent(parsed.value);
        if err.Some? {
          status := Paused;
          return false;
        }
        pointer := pointer + 1;
      }
      more := true;
    }

    /**
     * `play`: a no-op while already playing; otherwise the status becomes
     * `Playing`, a missing generator is loaded, and the loop runs until it
     * breaks, ending at `PlayOutcome`.
     */
    method Play(db: Database, decode: string -> Option<StreamEvent>, asset: AssetLookup)
      requires Valid()
      modifies this, db
      ensures Valid()
      ensures old(status) == Playing ==> Snapshot() == old(Snapshot()) && db.Contents() == old(db.Contents())
      ensures old(status) != Playing ==>
                var g0 := if old(generator).Some? then old(generator) else LoadOutcome(asset);
                Stepped(Snapshot(), db.Contents(), false)
                == PlayOutcome(Engine(g0, Playing, old(pointer)), old(db.Contents()), decode)
    {
      if status == Playing {
        return;
      }
      status := Playing;
      if generator.None? {
        Load(asset);
      }
      ghost var e0, s0 := Snapshot(), db.Contents();
      while status == Playing
        invariant Valid() && status == Playing
        invariant Accounted(e0, s0, Snapshot(), db.Contents(), decode)
        decreases RemainingOf(Snapshot())
      {
        StepKeepsAccount(e0, s0, Snapshot(), db.Contents(), decode);
        var more := Step(db, decode);
        if !more {
          break;
        }
      }
    }

    /** `pause`: the status becomes `Paused` whatever it was, `Finished` included. */
    method Pause()
      modifies this
      ensures status == Paused && generator == old(generator) && pointer == old(pointer)
    {
      status := Paused;
    }

    /**
     * `reset`: paused, pointer 0, generator dropped; the database is cleared
     * and reseeded to `baseline`, and the stream is loaded again.
     */
    method Reset(db: Database, baseline: Store, asset: AssetLookup)
      modifies this, db
      ensures Valid()
      ensures status == Paused && pointer == 0 && generator == LoadOutcome(asset)
      ensures db.Contents() == baseline
      ensures !IsPlaying() && EventCount() == 0 && IsReady() == asset.AssetAt?
    {
      status := Paused;
      pointer := 0;
      generator := None;
      db.Restore(baseline);
      Load(asset);
    }
  }
}
