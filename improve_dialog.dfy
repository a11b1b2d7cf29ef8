/**
 * The "improve solution" dialog: the order in which it offers a problem to the AI sources,
 * and the run that tries each source in turn until one answers with a reply that parses.
 */
module ImproveDialog {
  import opened Wrappers
  import opened Seqs
  import AiStore
  import AiClient

  function NotId(id: string): AiStore.AiSource -> bool {
    (s: AiStore.AiSource) => s.id != id
  }

  /**
   * `enabledSources`: the sources that can take a request, the active one first when it is
   * among them, the others in list order. It reorders without losing anything unless two of
   * them share the active id (every source that has it, other than the first, is dropped).
   */
  function OrderedSources(sources: seq<AiStore.AiSource>, activeSourceId: string): (r: seq<AiStore.AiSource>)
    ensures var available := AiStore.EnabledSources(sources);
      match Find(available, AiStore.HasId(activeSourceId))
      case None => r == available
      case Some(active) => r == [active] + Filter(available, NotId(activeSourceId))
    ensures forall s :: s in r ==> s in sources && AiStore.Usable(s)
    ensures |Filter(AiStore.EnabledSources(sources), AiStore.HasId(activeSourceId))| <= 1 ==>
      multiset(r) == multiset(AiStore.EnabledSources(sources))
    ensures (exists k :: 0 <= k < |sources| && sources[k].id == activeSourceId && AiStore.Usable(sources[k])) ==>
      r != [] && r[0].id == activeSourceId
  {
    var available := AiStore.EnabledSources(sources);
    match Find(available, AiStore.HasId(activeSourceId))
    case None => available
    case Some(active) =>
      OrderedPermutes(available, activeSourceId, active);
      [active] + Filter(available, NotId(activeSourceId))
  }

  lemma OrderedPermutes(available: seq<AiStore.AiSource>, activeSourceId: string, active: AiStore.AiSource)
    requires Find(available, AiStore.HasId(activeSourceId)) == Some(active)
    ensures |Filter(available, AiStore.HasId(activeSourceId))| <= 1 ==>
      multiset([active] + Filter(available, NotId(activeSourceId))) == multiset(available)
  {
    if |Filter(available, AiStore.HasId(activeSourceId))| <= 1 {
      FilterSingleFront(available, AiStore.HasId(activeSourceId), NotId(activeSourceId), active);
    }
  }

  /** The system prompt with the source's traits, empty when the source has none. */
  function TraitsPrompt(traits: Option<string>): (r: string)
    ensures traits.None? || traits.value == "" ==> r == ""
    ensures traits.Some? && traits.value != "" ==>
      r == "\nUser defined traits:\n<traits>\n" + traits.value + "\n</traits>\n"
  {
    if traits.Some? && traits.value != "" then "\nUser defined traits:\n<traits>\n" + traits.value + "\n</traits>\n"
    else ""
  }

  /** How asking one source ended, once it had a client: an error, a reply that does not parse, or a parsed reply. */
  datatype Reply<R> = Threw(message: string) | Unparsable | Parsed(response: R)

  /** Why a source did not improve the solution. */
  datatype Failure = NoKey(provider: string) | Error(message: string) | ParseFailed

  datatype Notice = NoSourceNotice | ProcessingNotice | FailedNotice(error: Failure)

  /** What the dialog does, in order. */
  datatype Effect<R> =
    | ClearStreamed(url: string)
    | Ask(sourceId: string, model: string, systemPrompts: seq<string>)
    | Update(response: R)
    | Toast(notice: Notice)
    | StartImproving
    | StopImproving

  /** What trying a list of sources did, which reply was taken, and the error seen last. */
  datatype Trial<R> = Trial(effects: seq<Effect<R>>, improved: Option<R>, lastError: Option<Failure>)

  /**
   * The system prompts of the fresh client a source gets: the improve prompt, the traits prompt
   * and the tools prompt, in the order the dialog installs them.
   */
  function SystemPrompts(s: AiStore.AiSource, improvePrompt: string, toolPrompts: seq<string>): seq<string> {
    [improvePrompt, TraitsPrompt(s.traits), AiClient.ToolsPrompt(toolPrompts)]
  }

  /** Whether `getClientForSource(s.id)` hands back a client. */
  function HasClient(sources: seq<AiStore.AiSource>, activeSourceId: string): AiStore.AiSource -> bool {
    (s: AiStore.AiSource) => AiStore.ClientForSource(sources, activeSourceId, Some(s.id)).Some?
  }

  /** The source gets a client and answers with a reply that parses. */
  ghost predicate Answers<R>(hasClient: AiStore.AiSource -> bool, reply: AiStore.AiSource -> Reply<R>, s: AiStore.AiSource) {
    hasClient(s) && reply(s).Parsed?
  }

  /** The error a failing source leaves behind. */
  function LastFailure<R>(hasClient: AiStore.AiSource -> bool, reply: AiStore.AiSource -> Reply<R>,
                          s: AiStore.AiSource): Failure {
    if !hasClient(s) then NoKey(s.name)
    else match reply(s)
      case Threw(message) => Error(message)
      case _ => ParseFailed
  }

  /**
   * The try-each-source loop: a source without a client records a missing-key error; any
   * other is asked after its streamed output is cleared, and on a parsed reply the solution is
   * updated, the output cleared and the loop ends; on a failure the error is recorded, the
   * output cleared and the next source tried.
   */
  function Attempts<R>(queue: seq<AiStore.AiSource>, hasClient: AiStore.AiSource -> bool, url: string,
                       improvePrompt: string, toolPrompts: seq<string>, reply: AiStore.AiSource -> Reply<R>, lastError: Option<Failure>): Trial<R>
    decreases |queue|
  {
    if queue == [] then Trial([], None, lastError)
    else
      var s := queue[0];
      var failure := Some(LastFailure(hasClient, reply, s));
      if !hasClient(s) then Attempts(queue[1..], hasClient, url, improvePrompt, toolPrompts, reply, failure)
      else
        var ask: seq<Effect<R>> := [ClearStreamed(url), Ask(s.id, s.model, SystemPrompts(s, improvePrompt, toolPrompts))];
        match reply(s)
        case Parsed(response) =>
          Trial(ask + [Update(response), ClearStreamed(url)], Some(response), lastError)
        case _ =>
          var t := Attempts(queue[1..], hasClient, url, improvePrompt, toolPrompts, reply, failure);
          t.(effects := ask + [ClearStreamed(url)] + t.effects)
  }

  /** No update happened. */
  ghost predicate NoUpdate<R>(effects: seq<Effect<R>>) {
    forall i :: 0 <= i < |effects| ==> !effects[i].Update?
  }

  /** No update unless a reply was taken; then exactly one, followed by clearing the streamed output. */
  ghost predicate UpdatesOnce<R>(t: Trial<R>, url: string) {
    && (t.improved.None? ==> NoUpdate(t.effects))
    && (t.improved.Some? ==>
          |t.effects| >= 4 && t.effects[|t.effects| - 2] == Update(t.improved.value) &&
          t.effects[|t.effects| - 1] == ClearStreamed(url) && NoUpdate(t.effects[..|t.effects| - 2]))
  }

  lemma {:induction false} AttemptsUpdateOnce<R>(queue: seq<AiStore.AiSource>, hasClient: AiStore.AiSource -> bool,
                                                 url: string, improvePrompt: string, toolPrompts: seq<string>,
                                                 reply: AiStore.AiSource -> Reply<R>, lastError: Option<Failure>)
    ensures UpdatesOnce(Attempts(queue, hasClient, url, improvePrompt, toolPrompts, reply, lastError), url)
    decreases |queue|
  {
    if queue != [] {
      var s := queue[0];
      var failure := Some(LastFailure(hasClient, reply, s));
      AttemptsUpdateOnce(queue[1..], hasClient, url, improvePrompt, toolPrompts, reply, failure);
      var rest := Attempts(queue[1..], hasClient, url, improvePrompt, toolPrompts, reply, failure);
      var t := Attempts(queue, hasClient, url, improvePrompt, toolPrompts, reply, lastError);
      var ask: seq<Effect<R>> := [ClearStreamed(url), Ask(s.id, s.model, SystemPrompts(s, improvePrompt, toolPrompts))];
      if hasClient(s) && reply(s).Parsed? {
        assert t.effects[..|t.effects| - 2] == ask;
      } else if hasClient(s) {
        var head := ask + [ClearStreamed(url)];
        assert t == Trial(head + rest.effects, rest.improved, rest.lastError);
        assert NoUpdate(head) by { assert forall i :: 0 <= i < |head| ==> !head[i].Update?; }
        PrependKeepsUpdatesOnce(head, rest, url);
      }
    }
  }

  /** Effects without an update in front of a trial keep it updating at most once. */
  lemma PrependKeepsUpdatesOnce<R>(head: seq<Effect<R>>, rest: Trial<R>, url: string)
    requires NoUpdate(head) && UpdatesOnce(rest, url)
    ensures UpdatesOnce(Trial(head + rest.effects, rest.improved, rest.lastError), url)
  {
    var all := head + rest.effects;
    if rest.improved.Some? {
      var before := rest.effects[..|rest.effects| - 2];
      assert all[..|all| - 2] == head + before;
      NoUpdateConcat(head, before);
    } else {
      NoUpdateConcat(head, rest.effects);
    }
  }

  lemma NoUpdateConcat<R>(a: seq<Effect<R>>, b: seq<Effect<R>>)
    requires NoUpdate(a) && NoUpdate(b)
    ensures NoUpdate(a + b)
  {
    forall i | 0 <= i < |a + b| ensures !(a + b)[i].Update? {
      if i >= |a| { assert (a + b)[i] == b[i - |a|]; }
    }
  }

  /** Every request to a source comes right after its streamed output was cleared. */
  ghost predicate ClearedBeforeAsk<R>(effects: seq<Effect<R>>, url: string) {
    forall i :: 0 <= i < |effects| && effects[i].Ask? ==> i > 0 && effects[i - 1] == ClearStreamed(url)
  }

  lemma {:induction false} AttemptsClearBeforeAsk<R>(queue: seq<AiStore.AiSource>, hasClient: AiStore.AiSource -> bool,
                                                     url: string, improvePrompt: string, toolPrompts: seq<string>,
                                                     reply: AiStore.AiSource -> Reply<R>, lastError: Option<Failure>)
    ensures ClearedBeforeAsk(Attempts(queue, hasClient, url, improvePrompt, toolPrompts, reply, lastError).effects, url)
    decreases |queue|
  {
    if queue != [] {
      var s := queue[0];
      var failure := Some(LastFailure(hasClient, reply, s));
      AttemptsClearBeforeAsk(queue[1..], hasClient, url, improvePrompt, toolPrompts, reply, failure);
      var rest := Attempts(queue[1..], hasClient, url, improvePrompt, toolPrompts, reply, failure);
      var t := Attempts(queue, hasClient, url, improvePrompt, toolPrompts, reply, lastError);
      var ask: seq<Effect<R>> := [ClearStreamed(url), Ask(s.id, s.model, SystemPrompts(s, improvePrompt, toolPrompts))];
      if hasClient(s) && !reply(s).Parsed? {
        assert t.effects == ask + [ClearStreamed(url)] + rest.effects;
        forall i | 0 <= i < |t.effects| && t.effects[i].Ask?
          ensures i > 0 && t.effects[i - 1] == ClearStreamed(url)
        {
          if i >= 4 {
            assert t.effects[i] == rest.effects[i - 3];
            assert t.effects[i - 1] == rest.effects[i - 4];
          }
        }
      }
    }
  }

  /** The first source in the queue that answers. */
  ghost predicate FirstAnswerAt<R>(queue: seq<AiStore.AiSource>, hasClient: AiStore.AiSource -> bool,
                                   reply: AiStore.AiSource -> Reply<R>, k: int) {
    0 <= k < |queue| && Answers(hasClient, reply, queue[k]) &&
    forall j :: 0 <= j < k ==> !Answers(hasClient, reply, queue[j])
  }

  /** A reply is taken exactly when some source answers, and it is the first such source's. */
  lemma {:induction false} AttemptsFirstAnswer<R>(queue: seq<AiStore.AiSource>, hasClient: AiStore.AiSource -> bool,
                                                  url: string, improvePrompt: string, toolPrompts: seq<string>,
                                                  reply: AiStore.AiSource -> Reply<R>, lastError: Option<Failure>)
    ensures var t := Attempts(queue, hasClient, url, improvePrompt, toolPrompts, reply, lastError);
      && (t.improved.Some? <==> exists k :: 0 <= k < |queue| && Answers(hasClient, reply, queue[k]))
      && (t.improved.Some? ==> exists k :: FirstAnswerAt(queue, hasClient, reply, k) &&
                                           t.improved.value == reply(queue[k]).response)
    decreases |queue|
  {
    if queue != [] {
      var s := queue[0];
      var rest := queue[1..];
      assert forall k :: 0 <= k < |rest| ==> rest[k] == queue[k + 1];
      var failure := Some(LastFailure(hasClient, reply, s));
      AttemptsFirstAnswer(rest, hasClient, url, improvePrompt, toolPrompts, reply, failure);
      var t := Attempts(queue, hasClient, url, improvePrompt, toolPrompts, reply, lastError);
      if Answers(hasClient, reply, s) {
        assert FirstAnswerAt(queue, hasClient, reply, 0);
      } else {
        assert t.improved == Attempts(rest, hasClient, url, improvePrompt, toolPrompts, reply, failure).improved;
        if t.improved.Some? {
          var k :| FirstAnswerAt(rest, hasClient, reply, k) && t.improved.value == reply(rest[k]).response;
          assert FirstAnswerAt(queue, hasClient, reply, k + 1);
        } else {
          assert forall k :: 1 <= k < |queue| ==> queue[k] == rest[k - 1];
        }
      }
    }
  }

  /** When no source in the queue answers, the error kept is the last source's. */
  lemma {:induction false} AttemptsLastError<R>(queue: seq<AiStore.AiSource>, hasClient: AiStore.AiSource -> bool,
                                                url: string, improvePrompt: string, toolPrompts: seq<string>,
                                                reply: AiStore.AiSource -> Reply<R>, lastError: Option<Failure>)
    requires queue != []
    requires forall k :: 0 <= k < |queue| ==> !Answers(hasClient, reply, queue[k])
    ensures var t := Attempts(queue, hasClient, url, improvePrompt, toolPrompts, reply, lastError);
      t.improved.None? && t.lastError == Some(LastFailure(hasClient, reply, queue[|queue| - 1]))
    decreases |queue|
  {
    var s := queue[0];
    assert !Answers(hasClient, reply, s);
    if |queue| > 1 {
      var rest := queue[1..];
      assert forall k :: 0 <= k < |rest| ==> rest[k] == queue[k + 1];
      AttemptsLastError(rest, hasClient, url, improvePrompt, toolPrompts, reply, Some(LastFailure(hasClient, reply, s)));
    }
  }

  /** What a run does once there is a problem to improve and a queue of sources to try. */
  function RunWith<R>(queue: seq<AiStore.AiSource>, hasClient: AiStore.AiSource -> bool, url: string,
                      improvePrompt: string, toolPrompts: seq<string>, reply: AiStore.AiSource -> Reply<R>): seq<Effect<R>> {
    Wrapped(Attempts(queue, hasClient, url, improvePrompt, toolPrompts, reply, None))
  }

  /** The attempts inside the improving flag, with a failure notice when none succeeded. */
  function Wrapped<R>(t: Trial<R>): seq<Effect<R>> {
    [Toast(ProcessingNotice), StartImproving] + t.effects
      + (if t.improved.Some? then [] else [Toast(FailedNotice(t.lastError.Coalesce(ParseFailed)))])
      + [StopImproving]
  }

  /**
   * `handleImproveSolution`: nothing without a problem; only a notice without a source; else
   * a processing notice, the attempts, a failure notice with the last error when none
   * succeeded, and the improving flag raised before and lowered after.
   */
  function ImproveRun<R>(hasProblem: bool, sources: seq<AiStore.AiSource>, activeSourceId: string, url: string,
                         improvePrompt: string, toolPrompts: seq<string>, reply: AiStore.AiSource -> Reply<R>): seq<Effect<R>> {
    var queue := OrderedSources(sources, activeSourceId);
    if !hasProblem then []
    else if queue == [] then [Toast(NoSourceNotice)]
    else RunWith(queue, HasClient(sources, activeSourceId), url, improvePrompt, toolPrompts, reply)
  }

  /** The `for` loop over the ordered sources, leaving as soon as one reply is taken. */
  method TryEach<R>(queue: seq<AiStore.AiSource>, sources: seq<AiStore.AiSource>, activeSourceId: string,
                    url: string, improvePrompt: string, toolPrompts: seq<string>, reply: AiStore.AiSource -> Reply<R>)
    returns (tried: seq<Effect<R>>, improved: Option<R>, lastError: Option<Failure>)
    ensures Trial(tried, improved, lastError) ==
      Attempts(queue, HasClient(sources, activeSourceId), url, improvePrompt, toolPrompts, reply, None)
  {
    ghost var hasClient := HasClient(sources, activeSourceId);
    ghost var whole := Attempts(queue, hasClient, url, improvePrompt, toolPrompts, reply, None);
    tried := [];
    lastError := None;
    for i := 0 to |queue|
      invariant var t := Attempts(queue[i..], hasClient, url, improvePrompt, toolPrompts, reply, lastError);
        whole == Trial(tried + t.effects, t.improved, t.lastError)
    {
      var taken;
      tried, lastError, taken := TrySource(queue, i, sources, activeSourceId, url, improvePrompt, toolPrompts, reply, tried, lastError);
      if taken.Some? {
        return tried, taken, lastError;
      }
    }
    assert queue[|queue|..] == [];
    improved := None;
  }

  /**
   * One pass of the loop body, on `queue[i]`: when it takes a reply, it has done all that the
   * sources from `i` on would do; otherwise what it added, followed by what the sources after
   * `i` do with the error it leaves, is what the sources from `i` on do.
   */
  method TrySource<R>(queue: seq<AiStore.AiSource>, i: nat, sources: seq<AiStore.AiSource>, activeSourceId: string,
                      url: string, improvePrompt: string, toolPrompts: seq<string>, reply: AiStore.AiSource -> Reply<R>,
                      tried: seq<Effect<R>>, lastError: Option<Failure>)
    returns (triedAfter: seq<Effect<R>>, errorAfter: Option<Failure>, taken: Option<R>)
    requires i < |queue|
    ensures var hasClient := HasClient(sources, activeSourceId);
      var t := Attempts(queue[i..], hasClient, url, improvePrompt, toolPrompts, reply, lastError);
      var rest := Attempts(queue[i + 1..], hasClient, url, improvePrompt, toolPrompts, reply, errorAfter);
      && (taken.Some? ==> Trial(triedAfter, taken, errorAfter) == Trial(tried + t.effects, t.improved, t.lastError))
      && (taken.None? ==> Trial(triedAfter + rest.effects, rest.improved, rest.lastError) ==
                          Trial(tried + t.effects, t.improved, t.lastError))
  {
    var hasClient := HasClient(sources, activeSourceId);
    AttemptsStep(queue, i, hasClient, url, improvePrompt, toolPrompts, reply, lastError);
    var source := queue[i];
    var client := AiStore.ClientForSource(sources, activeSourceId, Some(source.id));
    assert client.Some? == hasClient(source);
    taken := None;
    if client.None? {
      return tried, Some(LastFailure(hasClient, reply, source)), None;
    }
    var ask: seq<Effect<R>> := [ClearStreamed(url), Ask(source.id, source.model, SystemPrompts(source, improvePrompt, toolPrompts))];
    match reply(source) {
      case Parsed(response) =>
        triedAfter := tried + (ask + [Update(response), ClearStreamed(url)]);
        taken := Some(response);
        errorAfter := lastError;
      case _ =>
        errorAfter := Some(LastFailure(hasClient, reply, source));
        triedAfter := tried + (ask + [ClearStreamed(url)]);
        ghost var rest := Attempts(queue[i + 1..], hasClient, url, improvePrompt, toolPrompts, reply, errorAfter);
        ConcatAssoc(tried, ask + [ClearStreamed(url)], rest.effects);
    }
  }

  /** One step of the loop: what trying the sources from `i` on does, by how `queue[i]` fares. */
  lemma AttemptsStep<R>(queue: seq<AiStore.AiSource>, i: nat, hasClient: AiStore.AiSource -> bool, url: string,
                        improvePrompt: string, toolPrompts: seq<string>, reply: AiStore.AiSource -> Reply<R>, lastError: Option<Failure>)
    requires i < |queue|
    ensures var s := queue[i];
      var t := Attempts(queue[i..], hasClient, url, improvePrompt, toolPrompts, reply, lastError);
      var rest := Attempts(queue[i + 1..], hasClient, url, improvePrompt, toolPrompts, reply, Some(LastFailure(hasClient, reply, s)));
      var ask: seq<Effect<R>> := [ClearStreamed(url), Ask(s.id, s.model, SystemPrompts(s, improvePrompt, toolPrompts))];
      && (!hasClient(s) ==> t == rest)
      && (hasClient(s) && reply(s).Parsed? ==>
            t == Trial(ask + [Update(reply(s).response), ClearStreamed(url)], Some(reply(s).response), lastError))
      && (hasClient(s) && !reply(s).Parsed? ==> t == Trial(ask + [ClearStreamed(url)] + rest.effects, rest.improved, rest.lastError))
  {
    assert queue[i..][0] == queue[i];
    assert queue[i..][1..] == queue[i + 1..];
  }

  /** The handler: the guards, then the loop inside the improving flag, then the failure notice. */
  method HandleImproveSolution<R>(hasProblem: bool, sources: seq<AiStore.AiSource>, activeSourceId: string,
                                  url: string, improvePrompt: string, toolPrompts: seq<string>, reply: AiStore.AiSource -> Reply<R>)
    returns (effects: seq<Effect<R>>)
    ensures effects == ImproveRun(hasProblem, sources, activeSourceId, url, improvePrompt, toolPrompts, reply)
  {
    if !hasProblem {
      return [];
    }
    var queue := OrderedSources(sources, activeSourceId);
    if |queue| == 0 {
      return [Toast(NoSourceNotice)];
    }
    var tried, improved, lastError := TryEach(queue, sources, activeSourceId, url, improvePrompt, toolPrompts, reply);
    if improved.Some? {
      effects := [Toast(ProcessingNotice), StartImproving] + tried + [StopImproving];
    } else {
      effects := [Toast(ProcessingNotice), StartImproving] + tried
        + [Toast(FailedNotice(lastError.Coalesce(ParseFailed))), StopImproving];
    }
  }

  /** With no problem selected the dialog does nothing; with no usable source it only says so. */
  lemma NothingToTry<R>(hasProblem: bool, sources: seq<AiStore.AiSource>, activeSourceId: string, url: string,
                        improvePrompt: string, toolPrompts: seq<string>, reply: AiStore.AiSource -> Reply<R>)
    ensures !hasProblem ==> ImproveRun(hasProblem, sources, activeSourceId, url, improvePrompt, toolPrompts, reply) == []
    ensures hasProblem && !AiStore.HasActiveKey(sources) ==>
      ImproveRun(hasProblem, sources, activeSourceId, url, improvePrompt, toolPrompts, reply) == [Toast(NoSourceNotice)]
  {
  }

  /**
   * A run updates the solution at most once, and only with the reply of the first source in
   * the order that answers; it ends by lowering the improving flag.
   */
  lemma RunWithUpdatesOnce<R>(queue: seq<AiStore.AiSource>, hasClient: AiStore.AiSource -> bool, url: string,
                              improvePrompt: string, toolPrompts: seq<string>, reply: AiStore.AiSource -> Reply<R>, i: int, j: int)
    requires var e := RunWith(queue, hasClient, url, improvePrompt, toolPrompts, reply);
      0 <= i < |e| && 0 <= j < |e| && e[i].Update? && e[j].Update?
    ensures i == j
    ensures var e := RunWith(queue, hasClient, url, improvePrompt, toolPrompts, reply);
      e[|e| - 1] == StopImproving &&
      exists k :: FirstAnswerAt(queue, hasClient, reply, k) && e[i] == Update(reply(queue[k]).response)
  {
    var t := Attempts(queue, hasClient, url, improvePrompt, toolPrompts, reply, None);
    AttemptsUpdateOnce(queue, hasClient, url, improvePrompt, toolPrompts, reply, None);
    WrappedUpdatesOnce(t, url, i, j);
    AttemptsFirstAnswer(queue, hasClient, url, improvePrompt, toolPrompts, reply, None);
    var k :| FirstAnswerAt(queue, hasClient, reply, k) && t.improved.value == reply(queue[k]).response;
  }

  /** Around attempts that update at most once, the run holds exactly that one update. */
  lemma WrappedUpdatesOnce<R>(t: Trial<R>, url: string, i: int, j: int)
    requires UpdatesOnce(t, url)
    requires var e := Wrapped(t); 0 <= i < |e| && 0 <= j < |e| && e[i].Update? && e[j].Update?
    ensures var e := Wrapped(t);
      i == j && e[|e| - 1] == StopImproving && t.improved.Some? && e[i] == Update(t.improved.value)
  {
    var e := Wrapped(t);
    var prefix: seq<Effect<R>> := [Toast(ProcessingNotice), StartImproving];
    var tail: seq<Effect<R>> := e[2 + |t.effects|..];
    assert e == prefix + t.effects + tail;
    assert NoUpdate(prefix) by { assert forall k :: 0 <= k < |prefix| ==> !prefix[k].Update?; }
    assert NoUpdate(tail) by { assert forall k :: 0 <= k < |tail| ==> !tail[k].Update?; }
    assert forall k :: 2 + |t.effects| <= k < |e| ==> e[k] == tail[k - 2 - |t.effects|];
    assert t.effects[i - 2] == e[i];
    var n := |t.effects|;
    var before := prefix + t.effects[..n - 2];
    var after: seq<Effect<R>> := [ClearStreamed(url), StopImproving];
    assert t.effects == t.effects[..n - 2] + [Update(t.improved.value), ClearStreamed(url)];
    assert e == before + [Update(t.improved.value)] + after;
    NoUpdateConcat(prefix, t.effects[..n - 2]);
    SingleUpdate(e, before, t.improved.value, after, i, j);
  }

  /** In a list with one update and none around it, every update is that one. */
  lemma SingleUpdate<R>(e: seq<Effect<R>>, before: seq<Effect<R>>, x: R, after: seq<Effect<R>>, i: int, j: int)
    requires e == before + [Update(x)] + after
    requires NoUpdate(before) && NoUpdate(after)
    requires 0 <= i < |e| && 0 <= j < |e| && e[i].Update? && e[j].Update?
    ensures i == j == |before| && e[i] == Update(x)
  {
    assert forall k :: |before| < k < |e| ==> e[k] == after[k - |before| - 1];
    assert forall k :: 0 <= k < |before| ==> e[k] == before[k];
  }

  /** The same for the whole handler. */
  lemma RunUpdatesOnce<R>(hasProblem: bool, sources: seq<AiStore.AiSource>, activeSourceId: string, url: string,
                          improvePrompt: string, toolPrompts: seq<string>, reply: AiStore.AiSource -> Reply<R>, i: int, j: int)
    requires var e := ImproveRun(hasProblem, sources, activeSourceId, url, improvePrompt, toolPrompts, reply);
      0 <= i < |e| && 0 <= j < |e| && e[i].Update? && e[j].Update?
    ensures i == j
    ensures var e := ImproveRun(hasProblem, sources, activeSourceId, url, improvePrompt, toolPrompts, reply);
      var queue := OrderedSources(sources, activeSourceId);
      e[|e| - 1] == StopImproving &&
      exists k :: FirstAnswerAt(queue, HasClient(sources, activeSourceId), reply, k) &&
                  e[i] == Update(reply(queue[k]).response)
  {
    var queue := OrderedSources(sources, activeSourceId);
    RunWithUpdatesOnce(queue, HasClient(sources, activeSourceId), url, improvePrompt, toolPrompts, reply, i, j);
  }

  /** When every source fails, the notice reports the failure of the last source tried. */
  lemma RunWithReportsLastError<R>(queue: seq<AiStore.AiSource>, hasClient: AiStore.AiSource -> bool, url: string,
                                   improvePrompt: string, toolPrompts: seq<string>, reply: AiStore.AiSource -> Reply<R>)
    requires queue != []
    requires forall k :: 0 <= k < |queue| ==> !Answers(hasClient, reply, queue[k])
    ensures var e := RunWith(queue, hasClient, url, improvePrompt, toolPrompts, reply);
      |e| >= 2 && e[|e| - 1] == StopImproving &&
      e[|e| - 2] == Toast(FailedNotice(LastFailure(hasClient, reply, queue[|queue| - 1])))
  {
    AttemptsLastError(queue, hasClient, url, improvePrompt, toolPrompts, reply, None);
  }

  /** The same for the whole handler, when no source at all answers. */
  lemma RunReportsLastError<R>(hasProblem: bool, sources: seq<AiStore.AiSource>, activeSourceId: string, url: string,
                               improvePrompt: string, toolPrompts: seq<string>, reply: AiStore.AiSource -> Reply<R>)
    requires hasProblem && OrderedSources(sources, activeSourceId) != []
    requires forall s :: s in sources ==> !Answers(HasClient(sources, activeSourceId), reply, s)
    ensures var e := ImproveRun(hasProblem, sources, activeSourceId, url, improvePrompt, toolPrompts, reply);
      var queue := OrderedSources(sources, activeSourceId);
      |e| >= 2 && e[|e| - 1] == StopImproving &&
      e[|e| - 2] == Toast(FailedNotice(LastFailure(HasClient(sources, activeSourceId), reply, queue[|queue| - 1])))
  {
    var queue := OrderedSources(sources, activeSourceId);
    var hasClient := HasClient(sources, activeSourceId);
    QueuedDoNotAnswer(queue, sources, hasClient, reply);
    RunWithReportsLastError(queue, hasClient, url, improvePrompt, toolPrompts, reply);
  }

  lemma QueuedDoNotAnswer<R>(queue: seq<AiStore.AiSource>, sources: seq<AiStore.AiSource>,
                             hasClient: AiStore.AiSource -> bool, reply: AiStore.AiSource -> Reply<R>)
    requires forall s :: s in queue ==> s in sources
    requires forall s :: s in sources ==> !Answers(hasClient, reply, s)
    ensures forall k :: 0 <= k < |queue| ==> !Answers(hasClient, reply, queue[k])
  {
    forall k | 0 <= k < |queue| ensures !Answers(hasClient, reply, queue[k]) {
      assert queue[k] in queue;
    }
  }
}
