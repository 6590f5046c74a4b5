/** Publication of prepared load state: a seeding run rewrites two shared files and publishes a
    marker with their hashes, while any number of sidecars poll for it
    (perf/tools/perf_state_ready.py; perf/runner.py, main).

    Sidecars only read, so an interleaving is a history of the shared files together with the
    moments at which each sidecar reads them. */
module ReadyProtocol {
  import opened Common

  const STANDALONE: string := "standalone"

  /** A file's contents, and whether they parse. */
  datatype Bytes = Bytes(data: seq<nat>, json: bool)

  /** A collision-free hash. */
  datatype Digest = Digest(of: Bytes)

  datatype Marker = Marker(run: string, vectors: Digest, secrets: Digest)

  /** Where the seeding run stands. */
  datatype Phase =
    | Idle
    | Seeding(run: string)
    | VectorsHashed(run: string, vectors: Digest)
    | BothHashed(run: string, vectors: Digest, secrets: Digest)

  datatype State = State(vectors: Option<Bytes>, secrets: Option<Bytes>, marker: Option<Marker>, phase: Phase)

  /** The steps of seeding runs. A run may stop anywhere; a partial write is a write. */
  datatype Step =
    | Begin(run: string, unlinked: bool)
    | WriteVectors(contents: Bytes)
    | WriteSecrets(contents: Bytes)
    | HashVectors
    | HashSecrets
    | Publish
    | Abandon

  function Hash(b: Bytes): Digest {
    Digest(b)
  }

  /** The name a run publishes under. */
  function PublishedAs(run: string): string {
    if run == "" then STANDALONE else run
  }

  predicate Parses(file: Option<Bytes>) {
    file.Some? && file.value.json
  }

  predicate Enabled(s: State, step: Step) {
    match step
    case Begin(_, _) => s.phase.Idle?
    case WriteVectors(_) => s.phase.Seeding?
    case WriteSecrets(_) => s.phase.Seeding?
    case HashVectors => s.phase.Seeding? && Parses(s.vectors) && Parses(s.secrets)
    case HashSecrets => s.phase.VectorsHashed? && s.secrets.Some?
    case Publish => s.phase.BothHashed?
    case Abandon => !s.phase.Idle?
  }

  function Next(s: State, step: Step): State
    requires Enabled(s, step)
  {
    match step
    case Begin(run, unlinked) =>
      s.(marker := if unlinked then None else s.marker, phase := Seeding(PublishedAs(run)))
    case WriteVectors(b) => s.(vectors := Some(b))
    case WriteSecrets(b) => s.(secrets := Some(b))
    case HashVectors => s.(phase := VectorsHashed(s.phase.run, Hash(s.vectors.value)))
    case HashSecrets => s.(phase := BothHashed(s.phase.run, s.phase.vectors, Hash(s.secrets.value)))
    case Publish => s.(marker := Some(Marker(s.phase.run, s.phase.vectors, s.phase.secrets)), phase := Idle)
    case Abandon => s.(phase := Idle)
  }

  // ---------- The operations on the shared directory ----------

  class StateDir {
    var vectors: Option<Bytes>
    var secrets: Option<Bytes>
    var marker: Option<Marker>

    constructor (vectors: Option<Bytes>, secrets: Option<Bytes>, marker: Option<Marker>)
      ensures this.vectors == vectors && this.secrets == secrets && this.marker == marker
    {
      this.vectors, this.secrets, this.marker := vectors, secrets, marker;
    }

    ghost function AsState(phase: Phase): State
      reads this
    {
      State(vectors, secrets, marker, phase)
    }

    /** Removes the marker; a failure to do so is swallowed. */
    method ClearReady(run: string, unlinked: bool)
      modifies this`marker
      ensures AsState(Seeding(PublishedAs(run))) == Next(old(AsState(Idle)), Begin(run, unlinked))
    {
      if unlinked {
        marker := None;
      }
    }

    /** Hashes both files and publishes; without two parseable files nothing is published. */
    method WriteReady(run: string) returns (r: Result<Marker>)
      modifies this`marker
      ensures r.Ok? <==> Parses(old(vectors)) && Parses(old(secrets))
      ensures r.Err? ==> marker == old(marker)
      ensures r.Ok? ==>
        var hashed := Next(old(AsState(Seeding(run))), HashVectors);
        AsState(Idle) == Next(Next(hashed, HashSecrets), Publish) && marker == Some(r.value)
    {
      if vectors.None? || !vectors.value.json {
        return Err;
      }
      if secrets.None? || !secrets.value.json {
        return Err;
      }
      var m := Marker(run, Hash(vectors.value), Hash(secrets.value));
      marker := Some(m);
      return Ok(m);
    }
  }

  // ---------- Histories ----------

  ghost predicate History(h: seq<State>, steps: seq<Step>) {
    && |h| == |steps| + 1 && h[0].phase.Idle?
    && forall i :: 0 <= i < |steps| ==> Enabled(h[i], steps[i]) && h[i + 1] == Next(h[i], steps[i])
  }

  /** Every run that begins removes the marker, or finds none. */
  ghost predicate UnlinksWork(h: seq<State>, steps: seq<Step>)
    requires |h| == |steps| + 1
  {
    forall i :: 0 <= i < |steps| && steps[i].Begin? ==> steps[i].unlinked || h[i].marker.None?
  }

  /** A present marker describes the files that are there. */
  predicate Coherent(s: State) {
    s.marker.Some? ==>
      && s.vectors.Some? && Hash(s.vectors.value) == s.marker.value.vectors
      && s.secrets.Some? && Hash(s.secrets.value) == s.marker.value.secrets
  }

  /** Hashes taken by a run are those of the files it is about to publish. */
  predicate HashesCurrent(s: State) {
    && (s.phase.VectorsHashed? || s.phase.BothHashed? ==>
          && s.vectors.Some? && s.phase.vectors == Hash(s.vectors.value) && s.secrets.Some?
          && s.vectors.value.json && s.secrets.value.json)
    && (s.phase.BothHashed? ==> s.phase.secrets == Hash(s.secrets.value))
  }

  predicate NoMarkerWhileSeeding(s: State) {
    !s.phase.Idle? ==> s.marker.None?
  }

  lemma StepKeepsHashes(s: State, step: Step)
    requires Enabled(s, step) && HashesCurrent(s)
    ensures HashesCurrent(Next(s, step))
  {
  }

  lemma StepKeepsCoherence(s: State, step: Step)
    requires Enabled(s, step) && HashesCurrent(s) && Coherent(s) && NoMarkerWhileSeeding(s)
    requires step.Begin? ==> step.unlinked || s.marker.None?
    ensures Coherent(Next(s, step)) && NoMarkerWhileSeeding(Next(s, step))
  {
  }

  lemma {:induction false} HashesStayCurrent(h: seq<State>, steps: seq<Step>, i: nat)
    requires History(h, steps) && i < |h|
    ensures HashesCurrent(h[i])
  {
    if i > 0 {
      HashesStayCurrent(h, steps, i - 1);
      StepKeepsHashes(h[i - 1], steps[i - 1]);
    }
  }

  /** At every moment of every history whose unlinks work, a present marker describes the files. */
  lemma {:induction false} AlwaysCoherent(h: seq<State>, steps: seq<Step>, i: nat)
    requires History(h, steps) && UnlinksWork(h, steps) && Coherent(h[0]) && i < |h|
    ensures Coherent(h[i]) && NoMarkerWhileSeeding(h[i])
  {
    if i > 0 {
      AlwaysCoherent(h, steps, i - 1);
      HashesStayCurrent(h, steps, i - 1);
      StepKeepsCoherence(h[i - 1], steps[i - 1]);
    }
  }

  /** The unlink is what it takes: from a coherent state whose run has begun, every next write
      leaves a coherent state exactly when the marker is gone. */
  lemma CoherentUnderWritesIff(s: State)
    requires s.phase.Seeding? && Coherent(s)
    ensures (forall step :: Enabled(s, step) ==> Coherent(Next(s, step))) <==> s.marker.None?
  {
    if s.marker.Some? {
      var other := WriteVectors(Bytes(s.vectors.value.data + [0], true));
      assert Enabled(s, other);
      assert !Coherent(Next(s, other));
    }
  }

  /** An unlink that fails silently: the old marker outlives the files it describes. */
  lemma SwallowedUnlinkBreaksCoherence()
    ensures exists h, steps :: History(h, steps) && Coherent(h[0]) && !Coherent(h[|h| - 1])
  {
    var before, after := Bytes([1], true), Bytes([2], true);
    var s0 := State(Some(before), Some(before), Some(Marker("a", Hash(before), Hash(before))), Idle);
    var begin, write := Begin("b", false), WriteVectors(after);
    var s1 := Next(s0, begin);
    var s2 := Next(s1, write);
    var h, steps := [s0, s1, s2], [begin, write];
    assert History(h, steps) && Coherent(h[0]);
    assert !Coherent(h[|h| - 1]);
  }

  /** Step `j` published the marker, for the run that had begun last, over the files of that moment, which
      parse. */
  ghost predicate PublishedAt(h: seq<State>, steps: seq<Step>, j: nat, m: Marker)
    requires |h| == |steps| + 1
  {
    && j < |steps| && steps[j].Publish?
    && h[j].vectors.Some? && h[j].secrets.Some?
    && h[j].vectors.value.json && h[j].secrets.value.json
    && m.vectors == Hash(h[j].vectors.value) && m.secrets == Hash(h[j].secrets.value)
    && exists b :: BegunLast(steps, b, j, m.run)
  }

  /** Step `b` begins the run of this name, and no other run begins between it and step `j`. */
  ghost predicate BegunLast(steps: seq<Step>, b: nat, j: nat, name: string) {
    && b < j <= |steps| && steps[b].Begin?
    && name == (if steps[b].run == "" then "standalone" else steps[b].run)
    && forall i :: b < i < j ==> !steps[i].Begin?
  }

  lemma {:induction false} RunHasBegun(h: seq<State>, steps: seq<Step>, i: nat) returns (b: nat)
    requires History(h, steps) && i < |h| && !h[i].phase.Idle?
    ensures BegunLast(steps, b, i, h[i].phase.run)
  {
    if steps[i - 1].Begin? {
      b := i - 1;
    } else {
      b := RunHasBegun(h, steps, i - 1);
    }
  }

  /** A marker seen at any moment was there from the start or was published before. */
  lemma {:induction false} MarkerOrigin(h: seq<State>, steps: seq<Step>, i: nat)
    requires History(h, steps) && i < |h| && h[i].marker.Some? && h[i].marker != h[0].marker
    ensures exists j :: 0 <= j < i && PublishedAt(h, steps, j, h[i].marker.value)
  {
    if h[i - 1].marker == h[i].marker {
      MarkerOrigin(h, steps, i - 1);
    } else {
      HashesStayCurrent(h, steps, i - 1);
      var b := RunHasBegun(h, steps, i - 1);
      assert PublishedAt(h, steps, i - 1, h[i].marker.value);
    }
  }

  // ---------- Waiting ----------

  /** The moments of one poll: is there a marker, read it, hash the two files. */
  datatype Poll = Poll(existsAt: nat, readAt: nat, vectorsAt: nat, secretsAt: nat)

  ghost predicate Scheduled(polls: seq<Poll>, moments: nat) {
    && (forall k :: 0 <= k < |polls| ==>
          polls[k].existsAt <= polls[k].readAt <= polls[k].vectorsAt <= polls[k].secretsAt < moments)
    && (forall k :: 0 < k < |polls| ==> polls[k - 1].secretsAt <= polls[k].existsAt)
  }

  datatype Outcome = Ready(marker: Marker) | Mismatch | TimedOut(stale: bool)

  /** The marker a poll gets hold of. */
  function MarkerSeen(h: seq<State>, p: Poll): Option<Marker>
    requires p.existsAt < |h| && p.readAt < |h|
  {
    if h[p.existsAt].marker.Some? then h[p.readAt].marker else None
  }

  predicate Wanted(m: Marker, run: string) {
    run == "" || m.run == run
  }

  predicate Verified(h: seq<State>, p: Poll, m: Marker)
    requires p.vectorsAt < |h| && p.secretsAt < |h|
  {
    && h[p.vectorsAt].vectors.Some? && Hash(h[p.vectorsAt].vectors.value) == m.vectors
    && h[p.secretsAt].secrets.Some? && Hash(h[p.secretsAt].secrets.value) == m.secrets
  }

  /** Poll `k` is the first to get hold of a wanted marker. */
  ghost predicate FirstWanted(h: seq<State>, polls: seq<Poll>, run: string, k: nat)
    requires Scheduled(polls, |h|)
  {
    && k < |polls| && MarkerSeen(h, polls[k]).Some? && Wanted(MarkerSeen(h, polls[k]).value, run)
    && forall j :: 0 <= j < k ==> MarkerSeen(h, polls[j]).Some? ==> !Wanted(MarkerSeen(h, polls[j]).value, run)
  }

  method Verify(h: seq<State>, p: Poll, m: Marker) returns (ok: bool)
    requires p.vectorsAt < |h| && p.secretsAt < |h|
    ensures ok <==> Verified(h, p, m)
  {
    var problems := 0;
    var vectors := h[p.vectorsAt].vectors;
    if vectors.None? {
      problems := problems + 1;
    } else if Hash(vectors.value) != m.vectors {
      problems := problems + 1;
    }
    var secrets := h[p.secretsAt].secrets;
    if secrets.None? {
      problems := problems + 1;
    } else if Hash(secrets.value) != m.secrets {
      problems := problems + 1;
    }
    ok := problems == 0;
  }

  /** Polls until the deadline, which falls after the last poll. The first wanted marker decides;
      markers of other runs are passed over. */
  method WaitReady(h: seq<State>, run: string, polls: seq<Poll>) returns (o: Outcome)
    requires polls != [] && Scheduled(polls, |h|)
    ensures o.Ready? ==> exists k: nat ::
      FirstWanted(h, polls, run, k) && MarkerSeen(h, polls[k]) == Some(o.marker) && Verified(h, polls[k], o.marker)
    ensures o.Mismatch? ==> exists k: nat ::
      FirstWanted(h, polls, run, k) && !Verified(h, polls[k], MarkerSeen(h, polls[k]).value)
    ensures o.TimedOut? ==> forall k :: 0 <= k < |polls| ==>
      MarkerSeen(h, polls[k]).Some? ==> !Wanted(MarkerSeen(h, polls[k]).value, run)
    ensures o.TimedOut? ==> (o.stale <==> exists k :: 0 <= k < |polls| && MarkerSeen(h, polls[k]).Some?)
  {
    var stale := false;
    for i := 0 to |polls|
      invariant forall k :: 0 <= k < i ==>
          MarkerSeen(h, polls[k]).Some? ==> !Wanted(MarkerSeen(h, polls[k]).value, run)
      invariant stale <==> exists k :: 0 <= k < i && MarkerSeen(h, polls[k]).Some?
    {
      var p := polls[i];
      if h[p.existsAt].marker.Some? {
        var marker := h[p.readAt].marker;
        if marker.Some? {
          assert MarkerSeen(h, polls[i]) == marker;
          if run == "" || marker.value.run == run {
            assert FirstWanted(h, polls, run, i);
            var ok := Verify(h, p, marker.value);
            if ok {
              return Ready(marker.value);
            }
            return Mismatch;
          }
          stale := true;
        }
      }
    }
    return TimedOut(stale);
  }

  /** What a sidecar may rely on: the marker belongs to its run, and both files had, when they were
      read, the bytes that run hashed at the moment it published, or those the marker described
      from the start. This needs no unlink to work. */
  lemma ReadyMeans(h: seq<State>, steps: seq<Step>, polls: seq<Poll>, run: string, k: nat)
    requires History(h, steps) && Coherent(h[0]) && Scheduled(polls, |h|)
    requires FirstWanted(h, polls, run, k) && Verified(h, polls[k], MarkerSeen(h, polls[k]).value)
    ensures var m := MarkerSeen(h, polls[k]).value;
            && (run != "" ==> m.run == run)
            && exists j ::
                 && 0 <= j <= polls[k].readAt
                 && (PublishedAt(h, steps, j, m) || (j == 0 && h[0].marker == Some(m)))
                 && h[polls[k].vectorsAt].vectors == h[j].vectors
                 && h[polls[k].secretsAt].secrets == h[j].secrets
  {
    var m := MarkerSeen(h, polls[k]).value;
    if h[0].marker != Some(m) {
      MarkerOrigin(h, steps, polls[k].readAt);
    } else {
      assert h[polls[k].vectorsAt].vectors == h[0].vectors && h[polls[k].secretsAt].secrets == h[0].secrets;
    }
  }

  /** A mismatch is never a false alarm: where unlinks work, it means that another seeding run began
      between reading the marker and reading the files. */
  lemma MismatchMeans(h: seq<State>, steps: seq<Step>, polls: seq<Poll>, run: string, k: nat)
    requires History(h, steps) && UnlinksWork(h, steps) && Coherent(h[0]) && Scheduled(polls, |h|)
    requires FirstWanted(h, polls, run, k) && !Verified(h, polls[k], MarkerSeen(h, polls[k]).value)
    ensures exists i :: polls[k].readAt <= i < polls[k].secretsAt && steps[i].Begin?
  {
    var p := polls[k];
    AlwaysCoherent(h, steps, p.readAt);
    if p.readAt < p.secretsAt {
      assert Enabled(h[p.readAt], steps[p.readAt]);
      assert steps[p.readAt].Begin?;
    }
  }
}
