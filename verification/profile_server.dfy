/** The lifetime of the module-level profile record: it starts as the seed
    and every request, handled one after another, replaces it with the record
    its handler stores. A step pairs a request with the clock reading its
    handler sees.
 */
module ProfileServer {
  import opened ProfileTypes
  import opened ProfileRoute

  datatype Step = Step(request: Request, now: string)

  /** The record stored after handling `steps` in order, starting from `store`. */
  function Run(store: Profile, steps: seq<Step>): Profile
    decreases |steps|
  {
    if steps == [] then store
    else
      var last := steps[|steps| - 1];
      Handle(Run(store, steps[..|steps| - 1]), last.request, last.now).store
  }

  /** The index of the last step that is an accepted mutation, if any. */
  function LastMutation(steps: seq<Step>): (r: Option<nat>)
    decreases |steps|
    ensures r.Some? ==> r.value < |steps| && Mutates(steps[r.value].request)
    ensures r.Some? ==> forall j :: r.value < j < |steps| ==> !Mutates(steps[j].request)
    ensures r.None? ==> forall j :: 0 <= j < |steps| ==> !Mutates(steps[j].request)
  {
    if steps == [] then None
    else if Mutates(steps[|steps| - 1].request) then Some(|steps| - 1)
    else LastMutation(steps[..|steps| - 1])
  }

  /** No sequence of requests changes the record's id or creation time. */
  lemma {:induction false} RunKeepsIdentity(store: Profile, steps: seq<Step>)
    ensures Run(store, steps).id == store.id
    ensures Run(store, steps).createdAt == store.createdAt
    decreases |steps|
  {
    if steps != [] {
      RunKeepsIdentity(store, steps[..|steps| - 1]);
      var last := steps[|steps| - 1];
      HandleKeepsInvariants(Run(store, steps[..|steps| - 1]), last.request, last.now);
    }
  }

  /** Once the stored image is null or a non-empty URL it stays so. */
  lemma {:induction false} RunKeepsNormalisedImage(store: Profile, steps: seq<Step>)
    requires NormalisedImage(store.profileImage)
    ensures NormalisedImage(Run(store, steps).profileImage)
    decreases |steps|
  {
    if steps != [] {
      RunKeepsNormalisedImage(store, steps[..|steps| - 1]);
      var last := steps[|steps| - 1];
      HandleKeepsInvariants(Run(store, steps[..|steps| - 1]), last.request, last.now);
    }
  }

  /** The modification time is the clock reading of the last accepted
      mutation, or the starting one when no request mutated. Nothing orders
      the readings, so the time need not increase. */
  lemma {:induction false} RunStampsLastMutation(store: Profile, steps: seq<Step>)
    ensures Run(store, steps).updatedAt ==
              match LastMutation(steps)
              case None => store.updatedAt
              case Some(i) => steps[i].now
    decreases |steps|
  {
    if steps != [] {
      RunStampsLastMutation(store, steps[..|steps| - 1]);
      var last := steps[|steps| - 1];
      HandleKeepsInvariants(Run(store, steps[..|steps| - 1]), last.request, last.now);
    }
  }

  /** Requests that do not mutate (GETs, refused PUTs, PATCHes with a null
      body) leave the record
      exactly as it was. */
  lemma {:induction false} NonMutatingRunKeepsStore(store: Profile, steps: seq<Step>)
    requires forall j :: 0 <= j < |steps| ==> !Mutates(steps[j].request)
    ensures Run(store, steps) == store
    decreases |steps|
  {
    if steps != [] {
      NonMutatingRunKeepsStore(store, steps[..|steps| - 1]);
      var last := steps[|steps| - 1];
      HandleKeepsInvariants(Run(store, steps[..|steps| - 1]), last.request, last.now);
    }
  }

  /** Every record the process can hold has the seed's id and creation time
      and a normalised image. */
  lemma {:induction false} ReachableRecord(steps: seq<Step>)
    ensures Run(Seed, steps).id == "1"
    ensures Run(Seed, steps).createdAt == "2024-01-15T10:30:00Z"
    ensures NormalisedImage(Run(Seed, steps).profileImage)
  {
    RunKeepsIdentity(Seed, steps);
    RunKeepsNormalisedImage(Seed, steps);
  }

  /** The responses to `steps`, handled in order starting from `store`. */
  function Trace(store: Profile, steps: seq<Step>): (r: seq<ApiResponse>)
    decreases |steps|
    ensures |r| == |steps|
  {
    if steps == [] then []
    else
      var n := |steps| - 1;
      Trace(store, steps[..n]) + [Handle(Run(store, steps[..n]), steps[n].request, steps[n].now).response]
  }

  /** Handling one more step extends the record and the trace by exactly
      that step's transition. */
  lemma RunStep(store: Profile, steps: seq<Step>, k: nat)
    requires k < |steps|
    ensures var t := Handle(Run(store, steps[..k]), steps[k].request, steps[k].now);
            Run(store, steps[..k + 1]) == t.store && Trace(store, steps[..k + 1]) == Trace(store, steps[..k]) + [t.response]
  {
    assert steps[..k + 1][..k] == steps[..k];
  }

  /** The i-th response is the one its handler gives for the record left by
      the steps before it. */
  lemma {:induction false} TraceAnswers(store: Profile, steps: seq<Step>)
    ensures forall i :: 0 <= i < |steps| ==>
              Trace(store, steps)[i] == Handle(Run(store, steps[..i]), steps[i].request, steps[i].now).response
    decreases |steps|
  {
    if steps != [] {
      var n := |steps| - 1;
      var front := steps[..n];
      TraceAnswers(store, front);
      assert Trace(store, steps) == Trace(store, front) + [Handle(Run(store, front), steps[n].request, steps[n].now).response];
      forall i | 0 <= i < |steps|
        ensures Trace(store, steps)[i] == Handle(Run(store, steps[..i]), steps[i].request, steps[i].now).response
      {
        if i < n {
          assert front[..i] == steps[..i] && front[i] == steps[i];
          assert Trace(store, steps)[i] == Trace(store, front)[i];
        }
      }
    }
  }

  /** A successful response carries exactly the record stored right after
      its request, as the singleton is updated before the handler answers. */
  lemma TraceCarriesStore(store: Profile, steps: seq<Step>)
    ensures forall i :: 0 <= i < |steps| && Trace(store, steps)[i].success ==>
              Trace(store, steps)[i].data == Some(Run(store, steps[..i + 1]))
  {
    TraceAnswers(store, steps);
    forall i | 0 <= i < |steps| && Trace(store, steps)[i].success
      ensures Trace(store, steps)[i].data == Some(Run(store, steps[..i + 1]))
    {
      RunStep(store, steps, i);
      HandleKeepsInvariants(Run(store, steps[..i]), steps[i].request, steps[i].now);
    }
  }

  /** Handles `steps` one after another against the singleton record,
      starting from `initial` (the seed, when the process has just started),
      and collects one response per step: the final record is `Run`'s and the
      responses are `Trace`'s, so the lemmas above describe both. */
  method Replay(initial: Profile, steps: seq<Step>) returns (stored: Profile, responses: seq<ApiResponse>)
    ensures stored == Run(initial, steps)
    ensures responses == Trace(initial, steps)
  {
    stored := initial;
    responses := [];
    var k := 0;
    while k < |steps|
      invariant 0 <= k <= |steps|
      invariant stored == Run(initial, steps[..k])
      invariant responses == Trace(initial, steps[..k])
    {
      RunStep(initial, steps, k);
      var t := Handle(stored, steps[k].request, steps[k].now);
      stored := t.store;
      responses := responses + [t.response];
      k := k + 1;
    }
    assert steps[..k] == steps;
  }
}
