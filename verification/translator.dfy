/** The translator: a registry of providers and a rotating cursor into it.
    `translate` validates its input, chunks the text, and then either sends
    every chunk to one provider picked by name, or, chunk by chunk, asks the
    providers in turn from the cursor on until one of them answers.

    The first half of the module is a reference model over a snapshot of the
    providers' states (a `World`); the class `AutomaticTranslator` at the end
    runs the loops of the source and is proved to end in the state, and with
    the answer, that the reference model gives. */
module Translator {
  import opened Types
  import opened JsString
  import opened Providers
  import Chunker

  /** The chunk size used when the options give none (`options.chunkSize || 300`). */
  const DefaultChunkSize := 300

  function EffectiveChunkSize(chunkSize: int): (s: int)
    requires chunkSize >= 0
    ensures s >= 1 && (chunkSize == 0 || s == chunkSize)
    ensures chunkSize == 0 ==> s == DefaultChunkSize
  {
    if chunkSize != 0 then chunkSize else DefaultChunkSize
  }

  /** Why a call to `translate` throws. */
  datatype TranslateError =
    | EmptyText
    | MissingTargetLanguage
      /** `registered` lists the registered names, separated by ", ". */
    | ProviderNotFound(requested: string, registered: string)
    | ProviderUnavailable(requested: string)
    | ProviderRateLimited(requested: string)
      /** A provider's own error, passed on unchanged. */
    | Rethrown(error: TranslationError)
    | AllProvidersFailed

  /** One entry of `getAllProvidersInfo`. */
  datatype ProviderInfo = ProviderInfo(name: string, available: bool)

  /** A snapshot of the providers' states. The same provider object may be
      registered twice; keying the snapshot by object keeps its two slots in
      step. */
  type World = map<Provider, Status>

  predicate Covers(reg: seq<Provider>, w: World) {
    forall i :: 0 <= i < |reg| ==> reg[i] in w
  }

  /** The cursor points into the registry, and is 0 while the registry is empty. */
  predicate ValidCursor(reg: seq<Provider>, cursor: nat) {
    if |reg| == 0 then cursor == 0 else cursor < |reg|
  }

  /** What requests can do to the providers' states: no provider comes back
      once unavailable, an unavailable provider is never asked again, and a
      request count never goes down. */
  predicate Evolves(w: World, w': World) {
    w'.Keys == w.Keys &&
    forall q :: q in w ==>
      (w'[q].available ==> w[q].available) &&
      w[q].served <= w'[q].served &&
      (!w[q].available ==> w'[q] == w[q])
  }

  /** Some request was sent to `q` between the two snapshots. */
  predicate Asked(w: World, w': World, q: Provider)
    requires q in w && q in w'
  {
    w[q].served < w'[q].served
  }

  /** `q` was asked for `chunk` between the two snapshots, and its reply to
      the first of those requests was an error. */
  predicate Refused(w: World, w': World, q: Provider, chunk: string, opts: TranslationOptions)
    requires q in w && q in w'
  {
    Asked(w, w', q) && q.service(chunk, opts, w[q].served).Failure?
  }

  /** `(currentProviderIndex + 1) % providers.length`. */
  function NextSlot(reg: seq<Provider>, cursor: nat): (c: nat)
    requires cursor < |reg|
    ensures c < |reg| && (c == cursor + 1 || (c == 0 && cursor == |reg| - 1))
  {
    (cursor + 1) % |reg|
  }

  /** The state a single request leaves `w` in. */
  function Answered(w: World, p: Provider, reply: Outcome): (w': World)
    requires p in w
    ensures w'.Keys == w.Keys && w'[p].served == w[p].served + 1
    ensures forall q :: q in w && q != p ==> w'[q] == w[q]
  {
    w[p := AfterRequest(w[p], reply)]
  }

  /** The outcome of the attempts for one chunk in automatic mode. */
  datatype Attempt = Attempt(translated: Option<string>, cursor: nat, world: World)

  /** The inner loop of automatic mode, with `left` attempts still to go: an
      unavailable provider is skipped, an available one is asked, and on an
      answer the cursor stays on that provider; on a skip or an error the
      cursor moves on to the next slot. */
  function TryChunk(reg: seq<Provider>, w: World, chunk: string, opts: TranslationOptions,
                    cursor: nat, left: nat): (a: Attempt)
    requires Covers(reg, w) && ValidCursor(reg, cursor) && left <= |reg|
    ensures a.world.Keys == w.Keys && ValidCursor(reg, a.cursor)
    decreases left
  {
    if left == 0 then Attempt(None, cursor, w)
    else
      var p := reg[cursor];
      if !w[p].available then TryChunk(reg, w, chunk, opts, NextSlot(reg, cursor), left - 1)
      else
        var reply := p.service(chunk, opts, w[p].served);
        var w' := Answered(w, p, reply);
        if reply.Success? then Attempt(Some(reply.text), cursor, w')
        else TryChunk(reg, w', chunk, opts, NextSlot(reg, cursor), left - 1)
  }

  /** The result, cursor and provider states one call of `translate` ends with. */
  datatype Run = Run(result: Result<TranslationResult, TranslateError>, cursor: nat, world: World)

  /** The outer loop of automatic mode from chunk `i` on, having collected
      the translations `outs` and last used the provider named `used`. */
  function AutoRun(reg: seq<Provider>, w: World, chunks: seq<string>, opts: TranslationOptions,
                   cursor: nat, i: nat, outs: seq<string>, used: string): (run: Run)
    requires Covers(reg, w) && ValidCursor(reg, cursor) && i <= |chunks|
    ensures run.world.Keys == w.Keys && ValidCursor(reg, run.cursor)
    decreases |chunks| - i
  {
    if i == |chunks| then Run(Ok(TranslationResult(Join(outs, " "), used, |chunks|)), cursor, w)
    else
      var a := TryChunk(reg, w, chunks[i], opts, cursor, |reg|);
      match a.translated
      case None => Run(Err(AllProvidersFailed), a.cursor, a.world)
      case Some(t) => AutoRun(reg, a.world, chunks, opts, a.cursor, i + 1, outs + [t], reg[a.cursor].name)
  }

  /** The loop of the specific-provider mode from chunk `i` on: every chunk
      goes to `p`; its first error ends the call, a rate limit reported as
      such and any other error passed on. */
  function PinnedRun(p: Provider, w: World, chunks: seq<string>, opts: TranslationOptions,
                     i: nat, outs: seq<string>, used: string): (r: (Result<TranslationResult, TranslateError>, World))
    requires p in w && i <= |chunks|
    ensures r.1.Keys == w.Keys
    ensures forall q :: q in w && q != p ==> r.1[q] == w[q]
    decreases |chunks| - i
  {
    if i == |chunks| then (Ok(TranslationResult(Join(outs, " "), used, |chunks|)), w)
    else
      var reply := p.service(chunks[i], opts, w[p].served);
      var w' := Answered(w, p, reply);
      match reply
      case Success(t) => PinnedRun(p, w', chunks, opts, i + 1, outs + [t], p.name)
      case Failure(e) =>
        (Err(if e.kind == RateLimit then ProviderRateLimited(opts.specificProvider) else Rethrown(e)), w')
  }

  /** `providers.find(p => p.name.toLowerCase() === name.toLowerCase())`: the
      index of the first provider whose name matches `name` case-insensitively,
      or -1. */
  function FindProvider(reg: seq<Provider>, name: string): (k: int)
    ensures -1 <= k < |reg|
    ensures k >= 0 ==> ToLower(reg[k].name) == ToLower(name)
    ensures forall j :: 0 <= j < |reg| && (k == -1 || j < k) ==> ToLower(reg[j].name) != ToLower(name)
  {
    if |reg| == 0 then -1
    else if ToLower(reg[0].name) == ToLower(name) then 0
    else
      var k := FindProvider(reg[1..], name);
      if k == -1 then -1 else k + 1
  }

  /** `providers.map(p => p.name)`. */
  function Names(reg: seq<Provider>): (r: seq<string>)
    ensures |r| == |reg| && forall i :: 0 <= i < |reg| ==> r[i] == reg[i].name
  {
    seq(|reg|, i requires 0 <= i < |reg| => reg[i].name)
  }

  /** The input checks `translate` makes before any provider is asked. */
  function BlankText(text: string): (b: bool)
    ensures b <==> AllWhitespace(text)
  {
    TrimEmptyIffAllWhitespace(text);
    text == [] || Trim(text) == []
  }

  /** Reference model of `translate(text, options)` on a registry `reg`
      whose providers are in the states `w`, with the cursor at `cursor`. */
  function TranslateSpec(reg: seq<Provider>, w: World, cursor: nat, text: string,
                         opts: TranslationOptions): (run: Run)
    requires Covers(reg, w) && ValidCursor(reg, cursor) && opts.chunkSize >= 0
    ensures run.world.Keys == w.Keys && ValidCursor(reg, run.cursor)
  {
    if BlankText(text) then Run(Err(EmptyText), cursor, w)
    else if opts.targetLanguage == [] then Run(Err(MissingTargetLanguage), cursor, w)
    else Dispatch(reg, w, cursor, Chunker.Chunks(text, EffectiveChunkSize(opts.chunkSize)), opts)
  }

  /** What `translate` does with the chunks of a valid input: the
      specific-provider mode when a provider is named, automatic mode
      otherwise. */
  function Dispatch(reg: seq<Provider>, w: World, cursor: nat, chunks: seq<string>,
                    opts: TranslationOptions): (run: Run)
    requires Covers(reg, w) && ValidCursor(reg, cursor)
    ensures run.world.Keys == w.Keys && ValidCursor(reg, run.cursor)
  {
    if opts.specificProvider != [] then
      var k := FindProvider(reg, opts.specificProvider);
      if k == -1 then
        Run(Err(ProviderNotFound(opts.specificProvider, Join(Names(reg), ", "))), cursor, w)
      else if !w[reg[k]].available then
        Run(Err(ProviderUnavailable(opts.specificProvider)), cursor, w)
      else
        var r := PinnedRun(reg[k], w, chunks, opts, 0, [], "");
        Run(r.0, cursor, r.1)
    else
      AutoRun(reg, w, chunks, opts, cursor, 0, [], "")
  }

  /** The attempts for one chunk only ever ask available providers, and
      make no provider available again. */
  lemma {:induction false} TryChunkEvolves(reg: seq<Provider>, w: World, chunk: string, opts: TranslationOptions,
                                          cursor: nat, left: nat)
    requires Covers(reg, w) && ValidCursor(reg, cursor) && left <= |reg|
    ensures Evolves(w, TryChunk(reg, w, chunk, opts, cursor, left).world)
    decreases left
  {
    if left > 0 {
      var p := reg[cursor];
      var next := NextSlot(reg, cursor);
      if !w[p].available {
        TryChunkEvolves(reg, w, chunk, opts, next, left - 1);
      } else {
        var reply := p.service(chunk, opts, w[p].served);
        if reply.Failure? {
          TryChunkEvolves(reg, Answered(w, p, reply), chunk, opts, next, left - 1);
        }
      }
    }
  }

  lemma {:induction false} AutoRunEvolves(reg: seq<Provider>, w: World, chunks: seq<string>, opts: TranslationOptions,
                                         cursor: nat, i: nat, outs: seq<string>, used: string)
    requires Covers(reg, w) && ValidCursor(reg, cursor) && i <= |chunks|
    ensures Evolves(w, AutoRun(reg, w, chunks, opts, cursor, i, outs, used).world)
    decreases |chunks| - i
  {
    if i < |chunks| {
      var a := TryChunk(reg, w, chunks[i], opts, cursor, |reg|);
      TryChunkEvolves(reg, w, chunks[i], opts, cursor, |reg|);
      if a.translated.Some? {
        AutoRunEvolves(reg, a.world, chunks, opts, a.cursor, i + 1, outs + [a.translated.value], reg[a.cursor].name);
      }
    }
  }

  lemma {:induction false} PinnedRunEvolves(p: Provider, w: World, chunks: seq<string>, opts: TranslationOptions,
                                           i: nat, outs: seq<string>, used: string)
    requires p in w && w[p].available && i <= |chunks|
    ensures Evolves(w, PinnedRun(p, w, chunks, opts, i, outs, used).1)
    decreases |chunks| - i
  {
    if i < |chunks| {
      var reply := p.service(chunks[i], opts, w[p].served);
      if reply.Success? {
        PinnedRunEvolves(p, Answered(w, p, reply), chunks, opts, i + 1, outs + [reply.text], p.name);
      }
    }
  }

  /** Whatever `translate` does, no provider becomes available again, no
      unavailable provider is asked, and no request count goes down. */
  lemma TranslateEvolves(reg: seq<Provider>, w: World, cursor: nat, text: string, opts: TranslationOptions)
    requires Covers(reg, w) && ValidCursor(reg, cursor) && opts.chunkSize >= 0
    ensures Evolves(w, TranslateSpec(reg, w, cursor, text, opts).world)
  {
    if !BlankText(text) && opts.targetLanguage != [] {
      var chunks := Chunker.Chunks(text, EffectiveChunkSize(opts.chunkSize));
      if opts.specificProvider != [] {
        var k := FindProvider(reg, opts.specificProvider);
        if k != -1 && w[reg[k]].available {
          PinnedRunEvolves(reg[k], w, chunks, opts, 0, [], "");
        }
      } else {
        AutoRunEvolves(reg, w, chunks, opts, cursor, 0, [], "");
      }
    }
  }

  /** An index `x < 2n` brought back into `[0, n)`. */
  function Wrap(x: nat, n: nat): (r: nat)
    requires x < 2 * n
    ensures r < n && (r == x || r == x - n)
  {
    if x < n then x else x - n
  }

  /** Slot `j` is one of the `left` slots visited from `cursor` on, going
      round the registry of `n` slots once at most. */
  predicate Passed(cursor: nat, left: nat, n: nat, j: nat) {
    (cursor <= j < cursor + left) || j + n < cursor + left
  }

  /** A chunk that no provider translated moved the cursor on by one slot
      per attempt, and every slot it passed was either unavailable when the
      chunk started or was asked to translate it and replied with an
      error. */
  lemma {:induction false} ChunkFailed(reg: seq<Provider>, w: World, chunk: string, opts: TranslationOptions,
                                      cursor: nat, left: nat)
    requires Covers(reg, w) && ValidCursor(reg, cursor) && left <= |reg|
    ensures var a := TryChunk(reg, w, chunk, opts, cursor, left);
            a.translated.None? && |reg| > 0 ==>
              a.cursor == Wrap(cursor + left, |reg|) &&
              forall j :: 0 <= j < |reg| && Passed(cursor, left, |reg|, j) ==>
                !w[reg[j]].available || Refused(w, a.world, reg[j], chunk, opts)
    decreases left
  {
    var a := TryChunk(reg, w, chunk, opts, cursor, left);
    if left > 0 && a.translated.None? {
      var p := reg[cursor];
      var next := NextSlot(reg, cursor);
      var w' := if w[p].available then Answered(w, p, p.service(chunk, opts, w[p].served)) else w;
      assert Evolves(w, w');
      assert a == TryChunk(reg, w', chunk, opts, next, left - 1);
      ChunkFailed(reg, w', chunk, opts, next, left - 1);
      TryChunkEvolves(reg, w', chunk, opts, next, left - 1);
      forall j | 0 <= j < |reg| && Passed(cursor, left, |reg|, j)
        ensures !w[reg[j]].available || Refused(w, a.world, reg[j], chunk, opts)
      {
        if reg[j] != p {
          assert Passed(next, left - 1, |reg|, j);
        }
      }
    }
  }

  /** "All AI providers failed or are unavailable": when a full round of
      attempts leaves a chunk untranslated, the cursor is back where the
      round started and every registered provider was either unavailable
      from the start or was asked and replied with an error. */
  lemma AllFailedMeansAllTried(reg: seq<Provider>, w: World, chunk: string, opts: TranslationOptions, cursor: nat)
    requires Covers(reg, w) && ValidCursor(reg, cursor)
    ensures var a := TryChunk(reg, w, chunk, opts, cursor, |reg|);
            a.translated.None? ==>
              a.cursor == cursor &&
              forall j :: 0 <= j < |reg| ==> !w[reg[j]].available || Refused(w, a.world, reg[j], chunk, opts)
  {
    var a := TryChunk(reg, w, chunk, opts, cursor, |reg|);
    if a.translated.None? && |reg| > 0 {
      ChunkFailed(reg, w, chunk, opts, cursor, |reg|);
      assert forall j :: 0 <= j < |reg| ==> Passed(cursor, |reg|, |reg|, j);
    }
  }

  /** Going round from `cursor`, `m` slots were passed before landing on
      slot `c`, and every passed slot was either unavailable in `w` or asked
      for `chunk` between `w` and `w'` and replied with an error. */
  predicate SkippedTo(reg: seq<Provider>, w: World, w': World, chunk: string, opts: TranslationOptions,
                      cursor: nat, m: nat, c: nat)
    requires Covers(reg, w) && Covers(reg, w')
  {
    cursor + m < 2 * |reg| && c == Wrap(cursor + m, |reg|) &&
    forall j :: 0 <= j < |reg| && Passed(cursor, m, |reg|, j) ==>
      !w[reg[j]].available || Refused(w, w', reg[j], chunk, opts)
  }

  /** One skipped or failed attempt at `cursor`, followed by a round from
      the next slot, is a round from `cursor` that passed one slot more. */
  lemma SkippedStep(reg: seq<Provider>, w: World, w': World, wEnd: World, chunk: string, opts: TranslationOptions,
                    cursor: nat, m: nat, c: nat)
    requires Covers(reg, w) && Covers(reg, w') && Covers(reg, wEnd) && cursor < |reg| && m + 1 < |reg|
    requires w'.Keys == w.Keys && forall q :: q in w && q != reg[cursor] ==> w'[q] == w[q]
    requires !w[reg[cursor]].available || Refused(w, wEnd, reg[cursor], chunk, opts)
    requires SkippedTo(reg, w', wEnd, chunk, opts, NextSlot(reg, cursor), m, c)
    ensures SkippedTo(reg, w, wEnd, chunk, opts, cursor, m + 1, c)
  {
    var next := NextSlot(reg, cursor);
    forall j | 0 <= j < |reg| && Passed(cursor, m + 1, |reg|, j)
      ensures !w[reg[j]].available || Refused(w, wEnd, reg[j], chunk, opts)
    {
      if reg[j] != reg[cursor] {
        assert Passed(next, m, |reg|, j);
      }
    }
  }

  /** A chunk that some provider translated was offered to the providers
      from the cursor on: the cursor moved on by one slot per attempt before
      the answer, and every slot passed on the way was either unavailable
      when the chunk started or was asked to translate it and replied with
      an error: the first translation ends the round. */
  lemma {:induction false} ChunkSucceeded(reg: seq<Provider>, w: World, chunk: string, opts: TranslationOptions,
                                         cursor: nat, left: nat)
    requires Covers(reg, w) && ValidCursor(reg, cursor) && left <= |reg|
    ensures var a := TryChunk(reg, w, chunk, opts, cursor, left);
            a.translated.Some? ==> exists m :: 0 <= m < left && SkippedTo(reg, w, a.world, chunk, opts, cursor, m, a.cursor)
    decreases left
  {
    var a := TryChunk(reg, w, chunk, opts, cursor, left);
    if left > 0 && a.translated.Some? {
      var p := reg[cursor];
      var next := NextSlot(reg, cursor);
      if w[p].available && p.service(chunk, opts, w[p].served).Success? {
        assert SkippedTo(reg, w, a.world, chunk, opts, cursor, 0, a.cursor);
      } else {
        var w' := if w[p].available then Answered(w, p, p.service(chunk, opts, w[p].served)) else w;
        assert a == TryChunk(reg, w', chunk, opts, next, left - 1);
        ChunkSucceeded(reg, w', chunk, opts, next, left - 1);
        TryChunkEvolves(reg, w', chunk, opts, next, left - 1);
        var m' :| 0 <= m' < left - 1 && SkippedTo(reg, w', a.world, chunk, opts, next, m', a.cursor);
        if w[p].available {
          assert Refused(w, a.world, p, chunk, opts);
        }
        SkippedStep(reg, w, w', a.world, chunk, opts, cursor, m', a.cursor);
      }
    }
  }

  /** A provider that sits in none of the slots a round of attempts passes
      is left exactly as it was. */
  lemma {:induction false} TryChunkUntouched(reg: seq<Provider>, w: World, chunk: string, opts: TranslationOptions,
                                            cursor: nat, left: nat, q: Provider)
    requires Covers(reg, w) && ValidCursor(reg, cursor) && left <= |reg| && q in w
    requires forall j :: 0 <= j < |reg| && Passed(cursor, left, |reg|, j) ==> reg[j] != q
    ensures TryChunk(reg, w, chunk, opts, cursor, left).world[q] == w[q]
    decreases left
  {
    if left > 0 {
      var p := reg[cursor];
      var next := NextSlot(reg, cursor);
      assert Passed(cursor, left, |reg|, cursor);
      assert forall j :: 0 <= j < |reg| && Passed(next, left - 1, |reg|, j) ==> Passed(cursor, left, |reg|, j);
      if !w[p].available {
        TryChunkUntouched(reg, w, chunk, opts, next, left - 1, q);
      } else {
        var reply := p.service(chunk, opts, w[p].served);
        if reply.Failure? {
          TryChunkUntouched(reg, Answered(w, p, reply), chunk, opts, next, left - 1, q);
        }
      }
    }
  }

  /** The same provider object is registered at most once. */
  predicate Distinct(reg: seq<Provider>) {
    forall i, j :: 0 <= i < j < |reg| ==> reg[i] != reg[j]
  }

  /** In a registry without repeated entries, no provider is asked twice
      for the same chunk. */
  lemma {:induction false} AskedAtMostOnce(reg: seq<Provider>, w: World, chunk: string, opts: TranslationOptions,
                                          cursor: nat, left: nat)
    requires Covers(reg, w) && ValidCursor(reg, cursor) && left <= |reg| && Distinct(reg)
    ensures forall q :: q in w ==> TryChunk(reg, w, chunk, opts, cursor, left).world[q].served <= w[q].served + 1
    decreases left
  {
    if left > 0 {
      var p := reg[cursor];
      var next := NextSlot(reg, cursor);
      if !w[p].available {
        AskedAtMostOnce(reg, w, chunk, opts, next, left - 1);
      } else {
        var reply := p.service(chunk, opts, w[p].served);
        if reply.Failure? {
          var w' := Answered(w, p, reply);
          AskedAtMostOnce(reg, w', chunk, opts, next, left - 1);
          assert !Passed(next, left - 1, |reg|, cursor);
          TryChunkUntouched(reg, w', chunk, opts, next, left - 1, p);
        }
      }
    }
  }

  /** A chunk that was translated got its text from the provider the cursor
      rests on: that provider was available, and the answer is its reply to
      the last request it was sent. */
  lemma {:induction false} ChunkAnswered(reg: seq<Provider>, w: World, chunk: string, opts: TranslationOptions,
                                        cursor: nat, left: nat)
    requires Covers(reg, w) && ValidCursor(reg, cursor) && left <= |reg|
    ensures var a := TryChunk(reg, w, chunk, opts, cursor, left);
            a.translated.Some? ==>
              a.cursor < |reg| &&
              var q := reg[a.cursor];
              w[q].available && a.world[q].available && a.world[q].served >= 1 &&
              q.service(chunk, opts, a.world[q].served - 1) == Success(a.translated.value)
    decreases left
  {
    if left > 0 {
      var p := reg[cursor];
      if !w[p].available {
        ChunkAnswered(reg, w, chunk, opts, NextSlot(reg, cursor), left - 1);
      } else {
        var reply := p.service(chunk, opts, w[p].served);
        if reply.Failure? {
          ChunkAnswered(reg, Answered(w, p, reply), chunk, opts, NextSlot(reg, cursor), left - 1);
        }
      }
    }
  }

  /** Automatic mode ends in one of two ways: every chunk translated, the
      result counting every chunk and credited to the provider the cursor
      rests on; or "all providers failed". */
  lemma {:induction false} AutoRunOutcome(reg: seq<Provider>, w: World, chunks: seq<string>, opts: TranslationOptions,
                                         cursor: nat, i: nat, outs: seq<string>, used: string)
    requires Covers(reg, w) && ValidCursor(reg, cursor) && i <= |chunks|
    ensures var run := AutoRun(reg, w, chunks, opts, cursor, i, outs, used);
            (run.result.Err? ==> run.result.error == AllProvidersFailed) &&
            (run.result.Ok? ==>
              run.result.value.chunks == |chunks| &&
              (i < |chunks| ==> run.cursor < |reg| && run.result.value.provider == reg[run.cursor].name))
    decreases |chunks| - i
  {
    if i < |chunks| {
      var a := TryChunk(reg, w, chunks[i], opts, cursor, |reg|);
      if a.translated.Some? {
        ChunkAnswered(reg, w, chunks[i], opts, cursor, |reg|);
        AutoRunOutcome(reg, a.world, chunks, opts, a.cursor, i + 1, outs + [a.translated.value], reg[a.cursor].name);
      }
    }
  }

  /** A round that translates a chunk got the translation from a provider
      available at its start, the one the cursor rests on, in reply to that
      provider's latest request. */
  lemma ChunkGiven(reg: seq<Provider>, w: World, chunk: string, opts: TranslationOptions, cursor: nat)
    requires Covers(reg, w) && ValidCursor(reg, cursor)
    ensures var a := TryChunk(reg, w, chunk, opts, cursor, |reg|);
            a.translated.Some? ==>
              Covers(reg, a.world) && Evolves(w, a.world) &&
              a.cursor < |reg| && w[reg[a.cursor]].available &&
              AnsweredBy(reg, w, chunk, opts, a.translated.value) &&
              GaveLatest(reg, a.world, a.cursor, chunk, opts, a.translated.value)
  {
    var a := TryChunk(reg, w, chunk, opts, cursor, |reg|);
    if a.translated.Some? {
      ChunkAnswered(reg, w, chunk, opts, cursor, |reg|);
      TryChunkEvolves(reg, w, chunk, opts, cursor, |reg|);
      var n: nat := a.world[reg[a.cursor]].served - 1;
      assert reg[a.cursor].service(chunk, opts, n) == Success(a.translated.value);
    }
  }

  /** `t` is a translation of `chunk` that a registered provider, available
      in `w`, gave in reply to one of its requests. */
  ghost predicate AnsweredBy(reg: seq<Provider>, w: World, chunk: string, opts: TranslationOptions, t: string)
    requires Covers(reg, w)
  {
    exists k, n: nat :: 0 <= k < |reg| && w[reg[k]].available && reg[k].service(chunk, opts, n) == Success(t)
  }

  /** `t` is the reply of the provider at `cursor` to its latest request,
      which was for `chunk`. */
  predicate GaveLatest(reg: seq<Provider>, w: World, cursor: nat, chunk: string, opts: TranslationOptions, t: string) {
    cursor < |reg| && reg[cursor] in w && w[reg[cursor]].served >= 1 &&
    reg[cursor].service(chunk, opts, w[reg[cursor]].served - 1) == Success(t)
  }

  /** An answer by a provider available later was also given by one available earlier. */
  lemma AnsweredByEarlier(reg: seq<Provider>, w: World, w': World, chunk: string, opts: TranslationOptions, t: string)
    requires Covers(reg, w) && Covers(reg, w') && Evolves(w, w') && AnsweredBy(reg, w', chunk, opts, t)
    ensures AnsweredBy(reg, w, chunk, opts, t)
  {
    var k, n: nat :| 0 <= k < |reg| && w'[reg[k]].available && reg[k].service(chunk, opts, n) == Success(t);
    assert w[reg[k]].available;
  }

  /** One round of automatic mode: from the states `w` and the cursor `c`,
      the attempts for `chunk` give `t` and leave the states `w'` and the
      cursor `c'`; `t` is the latest reply of the provider at `c'`, which
      was available at the start of the round. */
  ghost predicate Round(reg: seq<Provider>, w: World, c: nat, chunk: string, opts: TranslationOptions,
                        t: string, w': World, c': nat)
  {
    Covers(reg, w) && ValidCursor(reg, c) &&
    TryChunk(reg, w, chunk, opts, c, |reg|) == Attempt(Some(t), c', w') &&
    Covers(reg, w') && Evolves(w, w') &&
    AnsweredBy(reg, w, chunk, opts, t) && GaveLatest(reg, w', c', chunk, opts, t) && w[reg[c']].available
  }

  /** The rounds of chunks `i` onwards, started from the states `w` and the
      cursor `c`: each round translates its chunk into the next of `ts`, as
      `Round` describes, and hands its states and cursor on to the next;
      the last round leaves the states `wEnd` and the cursor `cEnd`. */
  ghost predicate Rounds(reg: seq<Provider>, w: World, c: nat, chunks: seq<string>, opts: TranslationOptions,
                         i: nat, ts: seq<string>, wEnd: World, cEnd: nat)
    decreases |ts|
  {
    i + |ts| == |chunks| && Covers(reg, w) && ValidCursor(reg, c) &&
    if ts == [] then w == wEnd && c == cEnd
    else
      var a := TryChunk(reg, w, chunks[i], opts, c, |reg|);
      Round(reg, w, c, chunks[i], opts, ts[0], a.world, a.cursor) &&
      Rounds(reg, a.world, a.cursor, chunks, opts, i + 1, ts[1..], wEnd, cEnd)
  }

  /** `ts` are the translations of chunks `i` onwards that the successful
      run `run`, started from the states `w` and the cursor `cursor`, joined
      with single spaces after the translations `outs`: one per chunk in
      chunk order, each the text its round gave, the rounds running from
      `w` and `cursor` to the run's final states and cursor. Each is the
      reply of a registered provider that was available in `w`, and the
      last is the reply of the provider the run's cursor ends on, to its
      latest request. */
  ghost predicate Translations(reg: seq<Provider>, w: World, cursor: nat, chunks: seq<string>, opts: TranslationOptions,
                               i: nat, outs: seq<string>, run: Run, ts: seq<string>)
    requires Covers(reg, w) && i <= |chunks| && run.result.Ok?
  {
    |ts| == |chunks| - i && run.result.value.translatedText == Join(outs + ts, " ") &&
    Rounds(reg, w, cursor, chunks, opts, i, ts, run.world, run.cursor) &&
    (forall k :: i <= k < |chunks| ==> AnsweredBy(reg, w, chunks[k], opts, ts[k - i])) &&
    (i < |chunks| ==> GaveLatest(reg, run.world, run.cursor, chunks[|chunks| - 1], opts, ts[|ts| - 1]))
  }

  /** The rounds from given states and a given cursor determine their
      translations and where they end. */
  lemma {:induction false} RoundsUnique(reg: seq<Provider>, w: World, c: nat, chunks: seq<string>,
                                       opts: TranslationOptions, i: nat,
                                       ts1: seq<string>, w1: World, c1: nat, ts2: seq<string>, w2: World, c2: nat)
    requires Rounds(reg, w, c, chunks, opts, i, ts1, w1, c1) && Rounds(reg, w, c, chunks, opts, i, ts2, w2, c2)
    ensures ts1 == ts2 && w1 == w2 && c1 == c2
    decreases |ts1|
  {
    if ts1 != [] {
      var a := TryChunk(reg, w, chunks[i], opts, c, |reg|);
      RoundsUnique(reg, a.world, a.cursor, chunks, opts, i + 1, ts1[1..], w1, c1, ts2[1..], w2, c2);
      assert ts1 == [ts1[0]] + ts1[1..] && ts2 == [ts2[0]] + ts2[1..];
    }
  }

  /** The translations a successful run joined are determined: no other
      sequence of texts meets `Translations`. */
  lemma TranslationsUnique(reg: seq<Provider>, w: World, cursor: nat, chunks: seq<string>, opts: TranslationOptions,
                           i: nat, outs: seq<string>, run: Run, ts1: seq<string>, ts2: seq<string>)
    requires Covers(reg, w) && i <= |chunks| && run.result.Ok?
    requires Translations(reg, w, cursor, chunks, opts, i, outs, run, ts1)
    requires Translations(reg, w, cursor, chunks, opts, i, outs, run, ts2)
    ensures ts1 == ts2
  {
    RoundsUnique(reg, w, cursor, chunks, opts, i, ts1, run.world, run.cursor, ts2, run.world, run.cursor);
  }

  /** One more translated chunk, by the round `Round` describes, in front of
      the translations of the rest. */
  lemma TranslationsStep(reg: seq<Provider>, w: World, cursor: nat, w': World, cursor': nat,
                         chunks: seq<string>, opts: TranslationOptions,
                         i: nat, outs: seq<string>, run: Run, t: string, ts': seq<string>)
    requires Covers(reg, w) && Covers(reg, w') && i < |chunks| && run.result.Ok?
    requires Round(reg, w, cursor, chunks[i], opts, t, w', cursor')
    requires Translations(reg, w', cursor', chunks, opts, i + 1, outs + [t], run, ts')
    ensures Translations(reg, w, cursor, chunks, opts, i, outs, run, [t] + ts')
  {
    var ts := [t] + ts';
    assert outs + [t] + ts' == outs + ts;
    if i + 1 == |chunks| {
      assert ts' == [] && w' == run.world && cursor' == run.cursor;
    } else {
      assert ts[|ts| - 1] == ts'[|ts'| - 1];
    }
    RoundsCons(reg, w, cursor, w', cursor', chunks, opts, i, t, ts', run.world, run.cursor);
    AnsweredByAll(reg, w, w', chunks, opts, i, t, ts');
  }

  /** One more round in front of the rounds of the rest. */
  lemma RoundsCons(reg: seq<Provider>, w: World, c: nat, w': World, c': nat,
                   chunks: seq<string>, opts: TranslationOptions,
                   i: nat, t: string, ts': seq<string>, wEnd: World, cEnd: nat)
    requires i < |chunks| && Round(reg, w, c, chunks[i], opts, t, w', c')
    requires Rounds(reg, w', c', chunks, opts, i + 1, ts', wEnd, cEnd)
    ensures Rounds(reg, w, c, chunks, opts, i, [t] + ts', wEnd, cEnd)
  {
    var ts := [t] + ts';
    assert ts[0] == t && ts[1..] == ts';
  }

  /** The translations of the rest, given by providers available after the
      first round, were given by providers available before it. */
  lemma AnsweredByAll(reg: seq<Provider>, w: World, w': World, chunks: seq<string>, opts: TranslationOptions,
                      i: nat, t: string, ts': seq<string>)
    requires Covers(reg, w) && Covers(reg, w') && Evolves(w, w') && i < |chunks| && |ts'| == |chunks| - (i + 1)
    requires AnsweredBy(reg, w, chunks[i], opts, t)
    requires forall k :: i + 1 <= k < |chunks| ==> AnsweredBy(reg, w', chunks[k], opts, ts'[k - (i + 1)])
    ensures forall k :: i <= k < |chunks| ==> AnsweredBy(reg, w, chunks[k], opts, ([t] + ts')[k - i])
  {
    var ts := [t] + ts';
    forall k | i <= k < |chunks|
      ensures AnsweredBy(reg, w, chunks[k], opts, ts[k - i])
    {
      if k > i {
        assert ts[k - i] == ts'[k - (i + 1)];
        AnsweredByEarlier(reg, w, w', chunks[k], opts, ts[k - i]);
      }
    }
  }

  /** A successful automatic run joins, with single spaces, the translations
      already collected and one translation for each remaining chunk, in
      chunk order: the texts its rounds produced, each given by an available
      provider, the last by the provider the cursor ends on. */
  lemma {:induction false} AutoRunJoins(reg: seq<Provider>, w: World, chunks: seq<string>, opts: TranslationOptions,
                                       cursor: nat, i: nat, outs: seq<string>, used: string)
    requires Covers(reg, w) && ValidCursor(reg, cursor) && i <= |chunks|
    ensures var run := AutoRun(reg, w, chunks, opts, cursor, i, outs, used);
            run.result.Ok? ==> exists ts :: Translations(reg, w, cursor, chunks, opts, i, outs, run, ts)
    decreases |chunks| - i
  {
    var run := AutoRun(reg, w, chunks, opts, cursor, i, outs, used);
    if i == |chunks| {
      assert outs + [] == outs;
      assert Translations(reg, w, cursor, chunks, opts, i, outs, run, []);
    } else {
      var a := TryChunk(reg, w, chunks[i], opts, cursor, |reg|);
      if a.translated.Some? {
        var t, outs' := a.translated.value, outs + [a.translated.value];
        AutoRunJoins(reg, a.world, chunks, opts, a.cursor, i + 1, outs', reg[a.cursor].name);
        AutoRunJoinsCons(reg, w, chunks, opts, cursor, i, outs, used, t, i + 1, outs', a.world, a.cursor);
      }
    }
  }

  /** The step of `AutoRunJoins`: the first round's translation in front of
      the translations of the rest of the run. */
  lemma AutoRunJoinsCons(reg: seq<Provider>, w: World, chunks: seq<string>, opts: TranslationOptions,
                         cursor: nat, i: nat, outs: seq<string>, used: string,
                         t: string, i': nat, outs': seq<string>, w': World, cursor': nat)
    requires Covers(reg, w) && ValidCursor(reg, cursor) && i < |chunks| && i' == i + 1 && outs' == outs + [t]
    requires TryChunk(reg, w, chunks[i], opts, cursor, |reg|) == Attempt(Some(t), cursor', w')
    requires var rest := AutoRun(reg, w', chunks, opts, cursor', i', outs', reg[cursor'].name);
             rest.result.Ok? ==> exists ts' :: Translations(reg, w', cursor', chunks, opts, i', outs', rest, ts')
    ensures var run := AutoRun(reg, w, chunks, opts, cursor, i, outs, used);
            run.result.Ok? ==> exists ts :: Translations(reg, w, cursor, chunks, opts, i, outs, run, ts)
  {
    var run := AutoRun(reg, w, chunks, opts, cursor, i, outs, used);
    var rest := AutoRun(reg, w', chunks, opts, cursor', i', outs', reg[cursor'].name);
    assert run == rest;
    if run.result.Ok? {
      ChunkGiven(reg, w, chunks[i], opts, cursor);
      assert Round(reg, w, cursor, chunks[i], opts, t, w', cursor');
      var ts' :| Translations(reg, w', cursor', chunks, opts, i', outs', rest, ts');
      TranslationsStep(reg, w, cursor, w', cursor', chunks, opts, i, outs, run, t, ts');
    }
  }

  /** The reply `p` gives to chunk `k` of the specific-provider mode, when
      its first request of the run, for chunk `i`, was request number `n`. */
  function PinnedReply(p: Provider, chunks: seq<string>, opts: TranslationOptions, i: nat, n: nat, k: nat): Outcome
    requires i <= k < |chunks|
  {
    p.service(chunks[k], opts, n + (k - i))
  }

  /** The specific-provider mode stops at the provider's first error
      `PinnedFailure` describes, or else translates every chunk with the
      named provider, sending it exactly one request per chunk. */
  lemma {:induction false} PinnedRunOutcome(p: Provider, w: World, chunks: seq<string>, opts: TranslationOptions,
                                           i: nat, outs: seq<string>, used: string)
    requires p in w && i <= |chunks|
    ensures var r := PinnedRun(p, w, chunks, opts, i, outs, used);
            (r.0.Err? ==> exists j :: i <= j < |chunks| && PinnedFailure(p, w, chunks, opts, i, j, r)) &&
            (r.0.Ok? ==>
              r.0.value.chunks == |chunks| &&
              r.1[p] == Status(w[p].available, w[p].served + |chunks| - i) &&
              (i < |chunks| ==> r.0.value.provider == p.name))
    decreases |chunks| - i
  {
    if i < |chunks| {
      var reply := p.service(chunks[i], opts, w[p].served);
      var r := PinnedRun(p, w, chunks, opts, i, outs, used);
      if reply.Success? {
        var w' := Answered(w, p, reply);
        PinnedRunOutcome(p, w', chunks, opts, i + 1, outs + [reply.text], p.name);
        if r.0.Err? {
          var j :| i + 1 <= j < |chunks| && PinnedFailure(p, w', chunks, opts, i + 1, j, r);
          assert PinnedReply(p, chunks, opts, i, w[p].served, i) == reply;
          assert forall k :: i + 1 <= k <= j ==>
            PinnedReply(p, chunks, opts, i + 1, w'[p].served, k) == PinnedReply(p, chunks, opts, i, w[p].served, k);
          assert PinnedFailure(p, w, chunks, opts, i, j, r);
        }
      } else {
        assert PinnedFailure(p, w, chunks, opts, i, i, r);
      }
    }
  }

  /** The run `r` stopped at chunk `j`: the replies to the chunks before it
      were translations, the reply to chunk `j` was the error `e`; a rate
      limit is reported as such and marks the provider unavailable, any
      other error is passed on unchanged and leaves it available. */
  predicate PinnedFailure(p: Provider, w: World, chunks: seq<string>, opts: TranslationOptions, i: nat, j: nat,
                          r: (Result<TranslationResult, TranslateError>, World))
    requires p in w && p in r.1 && i <= j < |chunks|
  {
    (forall k :: i <= k < j ==> PinnedReply(p, chunks, opts, i, w[p].served, k).Success?) &&
    var o := PinnedReply(p, chunks, opts, i, w[p].served, j);
    o.Failure? &&
    r.0 == Err(if o.error.kind == RateLimit then ProviderRateLimited(opts.specificProvider) else Rethrown(o.error)) &&
    r.1[p] == Status(w[p].available && o.error.kind != RateLimit, w[p].served + (j - i) + 1)
  }

  /** The text of a reply that is a translation. */
  function ReplyText(o: Outcome): string {
    if o.Success? then o.text else ""
  }

  /** The texts of `p`'s replies to chunks `i` onwards, when its reply to
      chunk `i` is its request number `n`. */
  function PinnedTexts(p: Provider, chunks: seq<string>, opts: TranslationOptions, i: nat, n: nat): (ts: seq<string>)
    requires i <= |chunks|
    ensures |ts| == |chunks| - i
    ensures forall k :: i <= k < |chunks| ==> ts[k - i] == ReplyText(PinnedReply(p, chunks, opts, i, n, k))
    decreases |chunks| - i
  {
    if i == |chunks| then []
    else
      var rest := PinnedTexts(p, chunks, opts, i + 1, n + 1);
      var ts := [ReplyText(p.service(chunks[i], opts, n))] + rest;
      assert forall k :: i < k < |chunks| ==>
        ts[k - i] == rest[k - (i + 1)] && PinnedReply(p, chunks, opts, i + 1, n + 1, k) == PinnedReply(p, chunks, opts, i, n, k);
      ts
  }

  /** A successful specific-provider run joins, with single spaces, the
      translations already collected and the provider's replies to the
      remaining chunks, in chunk order; each of those replies was a translation. */
  lemma {:induction false} PinnedRunJoins(p: Provider, w: World, chunks: seq<string>, opts: TranslationOptions,
                                         i: nat, outs: seq<string>, used: string)
    requires p in w && i <= |chunks|
    ensures var r := PinnedRun(p, w, chunks, opts, i, outs, used);
            r.0.Ok? ==>
              (forall k :: i <= k < |chunks| ==> PinnedReply(p, chunks, opts, i, w[p].served, k).Success?) &&
              r.0.value.translatedText == Join(outs + PinnedTexts(p, chunks, opts, i, w[p].served), " ")
    decreases |chunks| - i
  {
    var r := PinnedRun(p, w, chunks, opts, i, outs, used);
    if i == |chunks| {
      assert outs + [] == outs;
    } else {
      var reply := p.service(chunks[i], opts, w[p].served);
      if reply.Success? && r.0.Ok? {
        var w' := Answered(w, p, reply);
        PinnedRunJoins(p, w', chunks, opts, i + 1, outs + [reply.text], p.name);
        assert outs + PinnedTexts(p, chunks, opts, i, w[p].served)
            == outs + [reply.text] + PinnedTexts(p, chunks, opts, i + 1, w'[p].served);
        assert forall k :: i + 1 <= k < |chunks| ==>
          PinnedReply(p, chunks, opts, i + 1, w'[p].served, k) == PinnedReply(p, chunks, opts, i, w[p].served, k);
      }
    }
  }

  /** The input checks come first: a blank text, and otherwise a missing
      target language, are reported before any provider is touched, and no
      other path reports them. */
  lemma ValidationFirst(reg: seq<Provider>, w: World, cursor: nat, text: string, opts: TranslationOptions)
    requires Covers(reg, w) && ValidCursor(reg, cursor) && opts.chunkSize >= 0
    ensures var run := TranslateSpec(reg, w, cursor, text, opts);
            (run.result == Err(EmptyText) <==> BlankText(text)) &&
            (run.result == Err(MissingTargetLanguage) <==> !BlankText(text) && opts.targetLanguage == []) &&
            (BlankText(text) || opts.targetLanguage == [] ==> run.cursor == cursor && run.world == w)
  {
    if !BlankText(text) && opts.targetLanguage != [] {
      var chunks := Chunker.Chunks(text, EffectiveChunkSize(opts.chunkSize));
      if opts.specificProvider != [] {
        var k := FindProvider(reg, opts.specificProvider);
        if k != -1 {
          PinnedRunOutcome(reg[k], w, chunks, opts, 0, [], "");
        }
      } else {
        AutoRunOutcome(reg, w, chunks, opts, cursor, 0, [], "");
      }
    }
  }

  /** A requested provider is reported missing exactly when no registered
      name matches it case-insensitively. */
  lemma NotFoundIffNoNameMatches(reg: seq<Provider>, w: World, cursor: nat, text: string, opts: TranslationOptions)
    requires Covers(reg, w) && ValidCursor(reg, cursor) && opts.chunkSize >= 0
    ensures var run := TranslateSpec(reg, w, cursor, text, opts);
            (run.result.Err? && run.result.error.ProviderNotFound?) <==>
              (!BlankText(text) && opts.targetLanguage != [] && opts.specificProvider != [] &&
               forall j :: 0 <= j < |reg| ==> ToLower(reg[j].name) != ToLower(opts.specificProvider))
  {
    ValidationFirst(reg, w, cursor, text, opts);
    if !BlankText(text) && opts.targetLanguage != [] {
      var chunks := Chunker.Chunks(text, EffectiveChunkSize(opts.chunkSize));
      if opts.specificProvider != [] {
        var k := FindProvider(reg, opts.specificProvider);
        if k != -1 {
          PinnedRunOutcome(reg[k], w, chunks, opts, 0, [], "");
        }
      } else {
        AutoRunOutcome(reg, w, chunks, opts, cursor, 0, [], "");
      }
    }
  }

  /** With a provider named, the cursor does not move and no provider other
      than the one the name matches changes state; on success that provider
      got one request per chunk, stays available, and is the one credited. */
  lemma SpecificModeOutcome(reg: seq<Provider>, w: World, cursor: nat, text: string, opts: TranslationOptions)
    requires Covers(reg, w) && ValidCursor(reg, cursor) && opts.chunkSize >= 0
    requires opts.specificProvider != []
    ensures var run := TranslateSpec(reg, w, cursor, text, opts);
            run.cursor == cursor &&
            (forall q :: q in w && run.world[q] != w[q] ==> ToLower(q.name) == ToLower(opts.specificProvider)) &&
            (!BlankText(text) && opts.targetLanguage != [] ==>
              var k := FindProvider(reg, opts.specificProvider);
              (k == -1 ==> run.result == Err(ProviderNotFound(opts.specificProvider, Join(Names(reg), ", "))) && run.world == w) &&
              (k != -1 && !w[reg[k]].available ==> run.result == Err(ProviderUnavailable(opts.specificProvider)) && run.world == w)) &&
            (run.result.Ok? ==>
              var k := FindProvider(reg, opts.specificProvider);
              var chunks := Chunker.Chunks(text, EffectiveChunkSize(opts.chunkSize));
              0 <= k && run.result.value.provider == reg[k].name && run.result.value.chunks == |chunks| &&
              run.world[reg[k]] == Status(true, w[reg[k]].served + |chunks|))
  {
    if !BlankText(text) && opts.targetLanguage != [] {
      var chunks := Chunker.Chunks(text, EffectiveChunkSize(opts.chunkSize));
      Chunker.ChunksNonEmpty(text, EffectiveChunkSize(opts.chunkSize));
      var k := FindProvider(reg, opts.specificProvider);
      if k != -1 {
        PinnedRunOutcome(reg[k], w, chunks, opts, 0, [], "");
      }
    }
  }

  /** Without a provider named, a successful call credits the provider the
      cursor ends on, and reports one chunk per piece of the text. */
  lemma AutomaticModeOutcome(reg: seq<Provider>, w: World, cursor: nat, text: string, opts: TranslationOptions)
    requires Covers(reg, w) && ValidCursor(reg, cursor) && opts.chunkSize >= 0
    requires opts.specificProvider == []
    ensures var run := TranslateSpec(reg, w, cursor, text, opts);
            run.result.Ok? ==>
              run.cursor < |reg| && run.result.value.provider == reg[run.cursor].name &&
              run.result.value.chunks == |Chunker.Chunks(text, EffectiveChunkSize(opts.chunkSize))| >= 1
  {
    if !BlankText(text) && opts.targetLanguage != [] {
      var chunks := Chunker.Chunks(text, EffectiveChunkSize(opts.chunkSize));
      Chunker.ChunksNonEmpty(text, EffectiveChunkSize(opts.chunkSize));
      AutoRunOutcome(reg, w, chunks, opts, cursor, 0, [], "");
    }
  }

  /** With no provider registered, automatic mode fails on any valid input
      and changes nothing. */
  lemma EmptyRegistryFails(w: World, cursor: nat, text: string, opts: TranslationOptions)
    requires ValidCursor([], cursor) && opts.chunkSize >= 0
    requires !BlankText(text) && opts.targetLanguage != [] && opts.specificProvider == []
    ensures TranslateSpec([], w, cursor, text, opts) == Run(Err(AllProvidersFailed), 0, w)
  {
    Chunker.ChunksNonEmpty(text, EffectiveChunkSize(opts.chunkSize));
  }

  /** `providers.map(p => ({ name: p.name, available: p.isAvailable() }))`. */
  function InfoOf(reg: seq<Provider>): (r: seq<ProviderInfo>)
    reads reg
    ensures |r| == |reg| && forall i :: 0 <= i < |reg| ==> r[i] == ProviderInfo(reg[i].name, reg[i].available)
  {
    if reg == [] then [] else [ProviderInfo(reg[0].name, reg[0].available)] + InfoOf(reg[1..])
  }

  /** `providers.filter(p => p.isAvailable()).map(p => p.name)`. */
  function AvailableNames(reg: seq<Provider>): (r: seq<string>)
    reads reg
    ensures |r| <= |reg|
    ensures forall x :: x in r <==> exists i :: 0 <= i < |reg| && reg[i].available && reg[i].name == x
  {
    if reg == [] then []
    else
      var rest := AvailableNames(reg[1..]);
      assert forall i :: 1 <= i < |reg| ==> reg[i] == reg[1..][i - 1];
      if reg[0].available then [reg[0].name] + rest else rest
  }

  /** The names of the entries marked available, in order. */
  function AvailableIn(infos: seq<ProviderInfo>): seq<string> {
    if infos == [] then []
    else (if infos[0].available then [infos[0].name] else []) + AvailableIn(infos[1..])
  }

  /** The two listings agree: the available names are exactly the names of
      the detailed entries marked available, in registry order. */
  lemma {:induction false} ListingsAgree(reg: seq<Provider>)
    ensures AvailableNames(reg) == AvailableIn(InfoOf(reg))
  {
    if reg != [] {
      ListingsAgree(reg[1..]);
      assert InfoOf(reg)[1..] == InfoOf(reg[1..]);
    }
  }

  /** The translator object: its provider registry and the slot automatic
      mode starts from. */
  class AutomaticTranslator {
    var providers: seq<Provider>
    var currentProviderIndex: nat

    ghost predicate Valid()
      reads this
    {
      ValidCursor(providers, currentProviderIndex)
    }

    /** The states of the registered providers. */
    ghost function States(): (w: World)
      reads this`providers, providers
      ensures Covers(providers, w) && w.Keys == set p | p in providers
    {
      map p | p in providers :: p.State()
    }

    /** Uses the given registry, or `defaults` (the built-in provider list)
        when none is given. */
    constructor (providers: Option<seq<Provider>>, defaults: seq<Provider>)
      ensures this.providers == (if providers.Some? then providers.value else defaults)
      ensures currentProviderIndex == 0 && Valid()
    {
      this.providers := if providers.Some? then providers.value else defaults;
      currentProviderIndex := 0;
    }

    method AddProvider(provider: Provider)
      requires Valid()
      modifies this`providers
      ensures providers == old(providers) + [provider]
      ensures Valid() && currentProviderIndex == old(currentProviderIndex)
      ensures States() == old(States())[provider := provider.State()]
    {
      providers := providers + [provider];
    }

    /** `translate(text, options)`, proved to end with the answer, cursor
        and provider states that `TranslateSpec` gives for the state it
        started in. */
    method Translate(text: string, options: TranslationOptions) returns (result: Result<TranslationResult, TranslateError>)
      requires Valid() && options.chunkSize >= 0
      modifies this`currentProviderIndex, providers
      ensures Valid()
      ensures var run := TranslateSpec(providers, old(States()), old(currentProviderIndex), text, options);
              result == run.result && currentProviderIndex == run.cursor && States() == run.world
    {
      if text == [] || Trim(text) == [] {
        return Err(EmptyText);
      }
      if options.targetLanguage == [] {
        return Err(MissingTargetLanguage);
      }
      var chunkSize := if options.chunkSize != 0 then options.chunkSize else DefaultChunkSize;
      var chunks := Chunker.ChunkText(text, chunkSize);
      result := TranslateChunks(chunks, options);
    }

    /** The two modes of `translate`, once the input is checked and chunked. */
    method TranslateChunks(chunks: seq<string>, options: TranslationOptions)
      returns (result: Result<TranslationResult, TranslateError>)
      requires Valid()
      modifies this`currentProviderIndex, providers
      ensures Valid()
      ensures var run := Dispatch(providers, old(States()), old(currentProviderIndex), chunks, options);
              result == run.result && currentProviderIndex == run.cursor && States() == run.world
    {
      if options.specificProvider != [] {
        var k := FindProvider(providers, options.specificProvider);
        if k == -1 {
          return Err(ProviderNotFound(options.specificProvider, Join(Names(providers), ", ")));
        }
        var provider := providers[k];
        if !provider.IsAvailable() {
          return Err(ProviderUnavailable(options.specificProvider));
        }
        result := TranslateWith(provider, chunks, options);
        return;
      }
      result := TranslateAuto(chunks, options);
    }

    /** The chunk loop of automatic mode: each chunk goes to the providers
        in turn from the cursor on; the first chunk nobody translates ends
        the call. */
    method TranslateAuto(chunks: seq<string>, options: TranslationOptions)
      returns (result: Result<TranslationResult, TranslateError>)
      requires Valid()
      modifies this`currentProviderIndex, providers
      ensures Valid()
      ensures var run := AutoRun(providers, old(States()), chunks, options, old(currentProviderIndex), 0, [], "");
              result == run.result && currentProviderIndex == run.cursor && States() == run.world
    {
      var translatedChunks: seq<string> := [];
      var usedProvider: string := "";
      ghost var final := AutoRun(providers, States(), chunks, options, currentProviderIndex, 0, [], "");
      for i := 0 to |chunks|
        invariant Valid()
        invariant AutoRun(providers, States(), chunks, options, currentProviderIndex, i, translatedChunks, usedProvider) == final
      {
        ghost var w0, c0 := States(), currentProviderIndex;
        ghost var a := TryChunk(providers, w0, chunks[i], options, c0, |providers|);
        var translated := TryProviders(chunks[i], options);
        if translated.None? {
          assert final == Run(Err(AllProvidersFailed), a.cursor, a.world);
          return Err(AllProvidersFailed);
        }
        assert final == AutoRun(providers, a.world, chunks, options, a.cursor, i + 1,
                                translatedChunks + [translated.value], providers[a.cursor].name);
        translatedChunks := translatedChunks + [translated.value];
        usedProvider := providers[currentProviderIndex].name;
      }
      return Ok(TranslationResult(Join(translatedChunks, " "), usedProvider, |chunks|));
    }

    /** One request to a registered provider, seen from the registry: only
        that provider's state changes, as `Answered` says. */
    method Ask(provider: Provider, chunk: string, options: TranslationOptions) returns (reply: Outcome)
      requires provider in providers
      modifies provider
      ensures reply == provider.service(chunk, options, old(States())[provider].served)
      ensures States() == Answered(old(States()), provider, reply)
    {
      reply := provider.Translate(chunk, options);
    }

    /** The specific-provider loop: every chunk goes to `provider`. */
    method TranslateWith(provider: Provider, chunks: seq<string>, options: TranslationOptions)
      returns (result: Result<TranslationResult, TranslateError>)
      requires provider in providers
      modifies provider
      ensures var r := PinnedRun(provider, old(States()), chunks, options, 0, [], "");
              result == r.0 && States() == r.1
    {
      var translatedChunks: seq<string> := [];
      var usedProvider: string := "";
      ghost var final := PinnedRun(provider, States(), chunks, options, 0, [], "");
      for i := 0 to |chunks|
        invariant PinnedRun(provider, States(), chunks, options, i, translatedChunks, usedProvider) == final
      {
        var reply := Ask(provider, chunks[i], options);
        match reply {
          case Success(t) =>
            translatedChunks := translatedChunks + [t];
            usedProvider := provider.name;
          case Failure(e) =>
            if e.kind == RateLimit {
              return Err(ProviderRateLimited(options.specificProvider));
            }
            return Err(Rethrown(e));
        }
      }
      return Ok(TranslationResult(Join(translatedChunks, " "), usedProvider, |chunks|));
    }

    /** The provider loop of automatic mode for one chunk: at most one
        attempt per registered slot, from the cursor on. */
    method TryProviders(chunk: string, options: TranslationOptions) returns (translated: Option<string>)
      requires Valid()
      modifies this`currentProviderIndex, providers
      ensures Valid()
      ensures var a := TryChunk(providers, old(States()), chunk, options, old(currentProviderIndex), |providers|);
              translated == a.translated && currentProviderIndex == a.cursor && States() == a.world
    {
      ghost var start := TryChunk(providers, States(), chunk, options, currentProviderIndex, |providers|);
      translated := None;
      assert TryChunk(providers, States(), chunk, options, currentProviderIndex, |providers| - 0) == start;
      for providerAttempt := 0 to |providers|
        invariant Valid() && translated.None?
        invariant TryChunk(providers, States(), chunk, options, currentProviderIndex, |providers| - providerAttempt) == start
      {
        var provider := providers[currentProviderIndex];
        if !provider.IsAvailable() {
          Advance();
          continue;
        }
        var reply := Ask(provider, chunk, options);
        if reply.Success? {
          translated := Some(reply.text);
          break;
        }
        if IsRateLimit(reply) {
          Advance();
          continue;
        }
        Advance();
      }
      assert start == Attempt(translated, currentProviderIndex, States());
    }

    /** `currentProviderIndex = (currentProviderIndex + 1) % providers.length`. */
    method Advance()
      requires |providers| > 0 && currentProviderIndex < |providers|
      modifies this`currentProviderIndex
      ensures currentProviderIndex == NextSlot(providers, old(currentProviderIndex))
      ensures Valid() && States() == old(States())
    {
      currentProviderIndex := (currentProviderIndex + 1) % |providers|;
    }

    /** Moves the cursor back to the first slot; the providers keep their
        own availability. */
    method ResetProviders()
      requires Valid()
      modifies this`currentProviderIndex
      ensures currentProviderIndex == 0 && Valid()
      ensures States() == old(States())
    {
      currentProviderIndex := 0;
    }

    /** `getAvailableProviders()`: the names of the registered providers
        that are currently available. */
    function GetAvailableProviders(): (names: seq<string>)
      reads this, providers
      ensures |names| <= |providers|
      ensures forall x :: x in names <==> exists i :: 0 <= i < |providers| && providers[i].available && providers[i].name == x
    {
      AvailableNames(providers)
    }

    /** `getAllProvidersInfo()`: one entry per registered slot, in order. */
    function GetAllProvidersInfo(): (infos: seq<ProviderInfo>)
      reads this, providers
      ensures |infos| == |providers|
      ensures forall i :: 0 <= i < |providers| ==> infos[i] == ProviderInfo(providers[i].name, providers[i].available)
    {
      InfoOf(providers)
    }
  }
}
