/** The completion index: cached evidence of session files that others keep
    appending to, with files taken out of use for good once in doubt. */
module Index {
  import opened Common
  import opened Domain

  type File = int

  /** The same files, each at the same version or a later one. */
  ghost predicate Later(was: map<File, int>, now: map<File, int>) {
    was.Keys == now.Keys && forall f | f in was :: f in now && was[f] <= now[f]
  }

  /** The session files.  A file's identity (device, inode, size and time) is a
      version number: appending only ever moves it on, and it determines what
      the file proves.  Looks are numbered, and `fails` says which of them fail. */
  class Disk {
    const proofs: (File, int) -> Option<seq<Proof>>
    const fails: int -> bool
    var version: map<File, int>
    var looks: int

    constructor (proofs: (File, int) -> Option<seq<Proof>>, fails: int -> bool, version: map<File, int>)
      ensures this.proofs == proofs && this.fails == fails && this.version == version && looks == 0
    {
      this.proofs, this.fails, this.version, looks := proofs, fails, version, 0;
    }

    /** Anybody may append to any file at any time. */
    method Pass()
      modifies this`version
      ensures Later(old(version), version)
    {
      var grown: map<File, nat> := *;
      version := map f | f in version :: version[f] + if f in grown && grown[f] > 0 then grown[f] else 0;
    }

    /** One look at the named file. */
    method Identity(f: File) returns (v: Option<int>)
      modifies this
      ensures Later(old(version), version) && looks == old(looks) + 1
      ensures v == if fails(old(looks)) || f !in version then None else Some(version[f])
    {
      Pass();
      v := if !fails(looks) && f in version then Some(version[f]) else None;
      looks := looks + 1;
    }

    /** One scan by the strict reader: it returns what the file proves as it was
        at that moment, unless the scan itself failed. */
    method Read(f: File) returns (r: Option<seq<Proof>>, ghost at: int)
      modifies this
      ensures Later(old(version), version) && looks == old(looks) + 1
      ensures f in version ==> at == version[f]
      ensures r == if fails(old(looks)) || f !in version then None else proofs(f, at)
    {
      Pass();
      at := if f in version then version[f] else 0;
      r := if fails(looks) || f !in version then None else proofs(f, version[f]);
      looks := looks + 1;
    }
  }

  /** One of these looks failed. */
  ghost predicate Failed(disk: Disk, start: int, end: int) {
    exists k :: start <= k < end && disk.fails(k)
  }

  lemma NoneFailed(disk: Disk, start: int)
    ensures !Failed(disk, start, start)
  {
  }

  lemma FailedMore(disk: Disk, start: int, end: int)
    requires start <= end
    ensures Failed(disk, start, end + 1) <==> Failed(disk, start, end) || disk.fails(end)
  {
  }

  lemma FailedAfter(disk: Disk, start: int, mid: int, end: int)
    requires start <= mid <= end
    ensures Failed(disk, start, end) <==> Failed(disk, start, mid) || Failed(disk, mid, end)
  {
  }

  datatype Cached = Cached(version: int, proofs: seq<Proof>)

  class CompletionIndex {
    const disk: Disk
    var poisoned: set<File>
    var pending: set<File>
    var cache: map<File, Cached>

    constructor (disk: Disk)
      ensures Valid() && this.disk == disk && poisoned == {} && pending == {}
    {
      this.disk := disk;
      poisoned, pending, cache := {}, {}, map[];
    }

    /** Whatever is cached is what the file proved at that version. */
    ghost predicate Valid()
      reads this
    {
      (forall f | f in cache :: disk.proofs(f, cache[f].version) == Some(cache[f].proofs)) && poisoned !! pending
    }

    method Invalidate(f: File)
      requires Valid()
      modifies this
      ensures Valid() && poisoned == old(poisoned) + {f} && pending == old(pending) - {f}
      ensures cache == old(cache) - {f}
    {
      poisoned := poisoned + {f};
      pending := pending - {f};
      cache := cache - {f};
    }

    method Reserve(f: File) returns (ok: bool)
      requires Valid()
      modifies this
      ensures Valid() && poisoned == old(poisoned)
      ensures ok <==> f !in old(poisoned) && f !in old(pending)
      ensures pending == if ok then old(pending) + {f} else old(pending)
      ensures cache == if ok then old(cache) - {f} else old(cache)
    {
      if f in poisoned || f in pending { return false; }
      cache := cache - {f};
      pending := pending + {f};
      ok := true;
    }

    method Publish(f: File) returns (ok: bool)
      requires Valid()
      modifies this
      ensures Valid() && poisoned == old(poisoned)
      ensures ok <==> f in old(pending) && f !in old(poisoned)
      ensures pending == if ok then old(pending) - {f} else old(pending)
      ensures cache == old(cache)
    {
      if f in poisoned || f !in pending { return false; }
      pending := pending - {f};
      ok := true;
    }

    /** What a file proves, as it was at some moment during the call: from the
        cache or from a new scan.  There is nothing, and the file is then out of
        use, exactly when a look failed or the file was out of use before, is
        missing, or proves nothing at its moment. */
    method Evidence(f: File) returns (r: Option<seq<Proof>>, ghost at: int)
      requires Valid()
      modifies this, disk
      ensures Valid() && pending <= old(pending) && Later(old(disk.version), disk.version)
      ensures old(disk.looks) <= disk.looks <= old(disk.looks) + 4
      ensures r.None? <==> Failed(disk, old(disk.looks), disk.looks) || Useless(disk, old(poisoned), f, at)
      ensures poisoned == old(poisoned) + if r.None? then {f} else {}
      ensures pending == if r.None? && f !in old(poisoned) then old(pending) - {f} else old(pending)
      ensures f in disk.version ==> f in old(disk.version) && old(disk.version)[f] <= at <= disk.version[f]
      ensures r.Some? ==> disk.proofs(f, at) == r
    {
      at := if f in disk.version then disk.version[f] else 0;
      if f in poisoned { return None, at; }
      hide Later, Failed;
      ghost var start, first := disk.version, disk.looks;
      NoneFailed(disk, first);
      var before := disk.Identity(f);
      FailedMore(disk, first, first);
      LaterAll(start, start, disk.version);
      if before.None? { Invalidate(f); return None, at; }
      if f in cache && cache[f].version == before.value {
        ghost var was := disk.version;
        var again := disk.Identity(f);
        FailedMore(disk, first, first + 1);
        LaterAll(start, was, disk.version);
        if again.None? { Invalidate(f); return None, at; }
        if again == before { return Some(cache[f].proofs), before.value; }
      }
      ghost var was, looks := disk.version, disk.looks;
      r, at := Rescan(f, before.value);
      FailedAfter(disk, first, looks, disk.looks);
      LaterAll(start, was, disk.version);
    }

    /** A new scan, cached if the file is still what it was before. */
    method Rescan(f: File, before: int) returns (r: Option<seq<Proof>>, ghost at: int)
      requires Valid() && f in disk.version && before <= disk.version[f] && f !in poisoned
      modifies this, disk
      ensures Valid() && Later(old(disk.version), disk.version)
      ensures old(disk.looks) <= disk.looks <= old(disk.looks) + 2
      ensures r.None? <==> Failed(disk, old(disk.looks), disk.looks) || Useless(disk, old(poisoned), f, at)
      ensures poisoned == old(poisoned) + if r.None? then {f} else {}
      ensures pending == if r.None? then old(pending) - {f} else old(pending)
      ensures f in disk.version && old(disk.version)[f] <= at <= disk.version[f]
      ensures r.Some? ==> disk.proofs(f, at) == r
    {
      r, at := disk.Read(f);
      if r.None? { Invalidate(f); return; }
      var after := disk.Identity(f);
      if after.None? {
        Invalidate(f);
        return None, at;
      }
      if after.value == before { cache := cache[f := Cached(after.value, r.value)]; }
    }

    /** The proofs of all mapped files, or nothing: exactly when a look failed
        or the files are barred.  `at` gives the moment at which each file was
        looked at, as far as the lookup came. */
    method Rebuild(files: seq<File>) returns (all: Option<seq<Proof>>, ghost at: seq<int>)
      requires Valid()
      modifies this, disk
      ensures Valid() && old(poisoned) <= poisoned && Later(old(disk.version), disk.version)
      ensures old(disk.looks) <= disk.looks <= old(disk.looks) + 4 * |files|
      ensures |at| <= |files| && Timed(files, at, old(disk.version), disk.version)
      ensures all.Some? ==> |at| == |files| && Gathers(disk, files, at, all.value) && Fresh(all.value)
      ensures all.None? <==> Failed(disk, old(disk.looks), disk.looks)
                             || Barred(disk, old(poisoned), old(pending), files, at)
      ensures (exists f | f in files :: f in old(poisoned) || f in old(pending)) ==> all.None?
    {
      at := [];
      var found: seq<Proof> := [];
      var ids: set<EventId> := {};
      ghost var start, first := disk.version, disk.looks;
      GoingFirst(disk, poisoned, pending, files, start, first);
      hide Going, Gathers, Fresh, Later, Timed, Failed, Barred, Useless;
      for k := 0 to |files|
        invariant Valid() && old(poisoned) == poisoned && pending == old(pending)
        invariant |at| == k && first <= disk.looks <= first + 4 * k
        invariant Going(disk, poisoned, pending, files, at, start, first, disk.version, disk.looks, found)
        invariant ids == EventsOf(found)
      {
        WhatGoing(disk, poisoned, pending, files, at, start, first, disk.version, disk.looks, found);
        if files[k] in pending {
          LastBars(disk, poisoned, pending, files, at);
          return None, at;
        }
        ghost var sofar, was, looks := at, disk.version, disk.looks;
        var proofs, when := Evidence(files[k]);
        at := at + [when];
        TimedMore(files, sofar, start, was, disk.version, when);
        FailedAfter(disk, first, looks, disk.looks);
        if proofs.None? {
          LastBars(disk, old(poisoned), old(pending), files, at);
          return None, at;
        }
        UsefulIsKnown(disk, old(poisoned), files[k], when);
        GathersMore(disk, files, sofar, found, k, when);
        var ok, more, events := Append(found, ids, proofs.value);
        if !ok {
          RepeatBars(disk, old(poisoned), old(pending), files, at, found + proofs.value);
          return None, at;
        }
        GoingOn(disk, old(poisoned), old(pending), files, sofar, when, start, first, was, looks, found, disk.version,
            disk.looks, more);
        found, ids := more, events;
      }
      WhatGoing(disk, poisoned, pending, files, at, start, first, disk.version, disk.looks, found);
      NotBarred(disk, poisoned, pending, files, at, start, first, disk.looks, found);
      all := Some(found);
    }

    /** Looking one event up: a failure, a proof, or nothing.  Nothing means
        that no mapped file proved it at its moment during the call, so a
        reserved or doubtful file is never taken for a miss; and a lookup fails
        exactly when a look did or the files are barred. */
    method FindEvent(files: seq<File>, chat: ChatId, event: EventId)
      returns (r: Result<Option<Proof>, PauseReason>, ghost at: seq<int>)
      requires Valid()
      modifies this, disk
      ensures Valid() && Later(old(disk.version), disk.version)
      ensures old(disk.looks) <= disk.looks <= old(disk.looks) + 4 * |files|
      ensures |at| <= |files| && Timed(files, at, old(disk.version), disk.version)
      ensures r.Err? <==> Failed(disk, old(disk.looks), disk.looks)
                          || Barred(disk, old(poisoned), old(pending), files, at)
      ensures (exists f | f in files :: f in old(poisoned) || f in old(pending)) ==> r.Err?
      ensures r.Ok? ==> |at| == |files| && forall i | 0 <= i < |files| ::
                && disk.proofs(files[i], at[i]).Some?
                && (r.value.None? ==> forall p | p in disk.proofs(files[i], at[i]).value :: !Names(p, chat, event))
      ensures r.Ok? && r.value.Some? ==>
                && Names(r.value.value, chat, event)
                && exists i :: 0 <= i < |files| && disk.proofs(files[i], at[i]).Some?
                    && r.value.value in disk.proofs(files[i], at[i]).value
    {
      var all;
      all, at := Rebuild(files);
      if all.None? { return Err(SessionFailed), at; }
      GatheredProofs(disk, files, at, all.value);
      hide Gathers, Fresh, Failed, Barred;
      for k := 0 to |all.value|
        invariant forall j | 0 <= j < k :: !Names(all.value[j], chat, event)
      {
        if Names(all.value[k], chat, event) {
          assert all.value[k] in all.value;
          return Ok(Some(all.value[k])), at;
        }
      }
      r := Ok(None);
    }
  }

  predicate Names(p: Proof, chat: ChatId, event: EventId) {
    p.marker.event == event && p.marker.chat == chat
  }

  /** No event is completed twice. */
  ghost predicate Fresh(proofs: seq<Proof>) {
    forall i, j | 0 <= i < j < |proofs| :: proofs[i].marker.event != proofs[j].marker.event
  }

  function EventsOf(proofs: seq<Proof>): set<EventId> {
    set p | p in proofs :: p.marker.event
  }

  /** The proofs of the files in order, each file as it was at its moment. */
  ghost predicate Gathers(disk: Disk, files: seq<File>, at: seq<int>, all: seq<Proof>)
    requires |at| >= |files|
  {
    if |files| == 0 then all == []
    else
      var n := |files| - 1;
      var last := disk.proofs(files[n], at[n]);
      && last.Some? && |last.value| <= |all|
      && all[|all| - |last.value|..] == last.value && Gathers(disk, files[..n], at, all[..|all| - |last.value|])
  }

  lemma {:induction false} GathersSame(disk: Disk, files: seq<File>, at: seq<int>, more: seq<int>, all: seq<Proof>)
    requires |at| >= |files| && at <= more
    ensures Gathers(disk, files, at, all) <==> Gathers(disk, files, more, all)
    decreases |files|
  {
    if |files| > 0 {
      var n := |files| - 1;
      assert at[n] == more[n];
      var last := disk.proofs(files[n], at[n]);
      if last.Some? && |last.value| <= |all| {
        GathersSame(disk, files[..n], at, more, all[..|all| - |last.value|]);
      }
    }
  }

  lemma GathersMore(disk: Disk, files: seq<File>, at: seq<int>, found: seq<Proof>, k: int, when: int)
    requires 0 <= k < |files| && |at| == k && Gathers(disk, files[..k], at, found)
    requires disk.proofs(files[k], when).Some?
    ensures Gathers(disk, files[..k + 1], at + [when], found + disk.proofs(files[k], when).value)
  {
    var more := found + disk.proofs(files[k], when).value;
    assert files[..k + 1][..k] == files[..k];
    GathersSame(disk, files[..k], at, at + [when], found);
    assert more[..|found|] == found && more[|found|..] == disk.proofs(files[k], when).value;
  }

  /** The gathered proofs are exactly those of the files. */
  lemma {:induction false} GatheredProofs(disk: Disk, files: seq<File>, at: seq<int>, all: seq<Proof>)
    requires |at| >= |files| && Gathers(disk, files, at, all)
    ensures forall i | 0 <= i < |files| ::
              disk.proofs(files[i], at[i]).Some? && forall p | p in disk.proofs(files[i], at[i]).value :: p in all
    ensures forall p | p in all ::
              exists i :: 0 <= i < |files| && disk.proofs(files[i], at[i]).Some?
                  && p in disk.proofs(files[i], at[i]).value
    decreases |files|
  {
    if |files| > 0 {
      var n := |files| - 1;
      var last := disk.proofs(files[n], at[n]).value;
      var front := all[..|all| - |last|];
      assert all == front + last;
      GatheredProofs(disk, files[..n], at, front);
      forall p | p in all
        ensures exists i ::
            0 <= i < |files| && disk.proofs(files[i], at[i]).Some? && p in disk.proofs(files[i], at[i]).value
      {
        if p in front {
          var i :| 0 <= i < n && disk.proofs(files[..n][i], at[i]).Some?
              && p in disk.proofs(files[..n][i], at[i]).value;
          assert files[..n][i] == files[i];
        }
      }
      forall i | 0 <= i < n
          ensures disk.proofs(files[i], at[i]).Some? && forall p | p in disk.proofs(files[i], at[i]).value :: p in all {
        assert files[..n][i] == files[i];
      }
    }
  }

  /** Out of use, missing, or proving nothing at that moment. */
  ghost predicate Useless(disk: Disk, poisoned: set<File>, f: File, at: int)
    reads disk
  {
    f in poisoned || f !in disk.version || disk.proofs(f, at).None?
  }

  /** What keeps the files from being gathered: one that was looked at is
      useless, the next one is reserved, or an event is completed twice. */
  ghost predicate Barred(disk: Disk, poisoned: set<File>, pending: set<File>, files: seq<File>, at: seq<int>)
    requires |at| <= |files|
    reads disk
  {
    || (exists i :: 0 <= i < |at| && Useless(disk, poisoned, files[i], at[i]))
    || (|at| < |files| && files[|at|] in pending)
    || (exists found :: Gathers(disk, files[..|at|], at, found) && !Fresh(found))
  }

  lemma LastBars(disk: Disk, poisoned: set<File>, pending: set<File>, files: seq<File>, at: seq<int>)
    requires |at| <= |files|
    ensures |at| > 0 && Useless(disk, poisoned, files[|at| - 1], at[|at| - 1]) ==>
        Barred(disk, poisoned, pending, files, at)
    ensures |at| < |files| && files[|at|] in pending ==> Barred(disk, poisoned, pending, files, at)
  {
    hide Useless;
  }

  lemma RepeatBars(disk: Disk, poisoned: set<File>, pending: set<File>, files: seq<File>, at: seq<int>,
      found: seq<Proof>)
    requires |at| <= |files| && Gathers(disk, files[..|at|], at, found) && !Fresh(found)
    ensures Barred(disk, poisoned, pending, files, at)
  {
    hide Gathers, Fresh;
  }

  lemma UsefulIsKnown(disk: Disk, poisoned: set<File>, f: File, at: int)
    requires !Useless(disk, poisoned, f, at)
    ensures f !in poisoned && f in disk.version && disk.proofs(f, at).Some?
  {
  }

  /** A lookup that has met no trouble in the files it has looked at. */
  ghost predicate Going(disk: Disk, poisoned: set<File>, pending: set<File>, files: seq<File>, at: seq<int>,
      start: map<File, int>, first: int, now: map<File, int>, looks: int, found: seq<Proof>)
  {
    && |at| <= |files| && first <= looks && Later(start, now) && Timed(files, at, start, now)
    && !Failed(disk, first, looks) && Gathers(disk, files[..|at|], at, found) && Fresh(found)
    && forall i | 0 <= i < |at| :: files[i] !in poisoned && files[i] !in pending && files[i] in now
  }

  lemma GoingFirst(disk: Disk, poisoned: set<File>, pending: set<File>, files: seq<File>, start: map<File, int>,
      first: int)
    ensures Going(disk, poisoned, pending, files, [], start, first, start, first, [])
  {
  }

  lemma WhatGoing(disk: Disk, poisoned: set<File>, pending: set<File>, files: seq<File>, at: seq<int>,
      start: map<File, int>, first: int, now: map<File, int>, looks: int, found: seq<Proof>)
    requires Going(disk, poisoned, pending, files, at, start, first, now, looks, found)
    ensures |at| <= |files| && first <= looks && Later(start, now) && Timed(files, at, start, now)
    ensures !Failed(disk, first, looks) && Gathers(disk, files[..|at|], at, found) && Fresh(found)
    ensures |at| == |files| ==> files[..|at|] == files && forall f | f in files :: f !in poisoned && f !in pending
  {
    hide Later, Timed, Failed, Gathers, Fresh;
  }

  lemma GoingOn(disk: Disk, poisoned: set<File>, pending: set<File>, files: seq<File>, at: seq<int>, when: int,
      start: map<File, int>, first: int, was: map<File, int>, looks: int, found: seq<Proof>, now: map<File, int>,
      looks': int, more: seq<Proof>)
    requires Going(disk, poisoned, pending, files, at, start, first, was, looks, found) && |at| < |files|
    requires looks <= looks' && !Failed(disk, first, looks') && Fresh(more)
    requires Later(was, now) && Later(start, now) && Timed(files, at + [when], start, now)
    requires Gathers(disk, files[..|at| + 1], at + [when], more)
    requires files[|at|] !in poisoned && files[|at|] !in pending && files[|at|] in now
    ensures Going(disk, poisoned, pending, files, at + [when], start, first, now, looks', more)
  {
    forall i | 0 <= i < |at| ensures files[i] in now {
      LaterFrom(was, now, files[i]);
    }
    hide Later, Timed, Failed, Gathers, Fresh;
  }

  lemma NotBarred(disk: Disk, poisoned: set<File>, pending: set<File>, files: seq<File>, at: seq<int>,
      start: map<File, int>, first: int, looks: int, all: seq<Proof>)
    requires Going(disk, poisoned, pending, files, at, start, first, disk.version, looks, all) && |at| == |files|
    ensures !Barred(disk, poisoned, pending, files, at)
  {
    hide Gathers, Fresh;
    assert files[..|at|] == files;
    GatheredProofs(disk, files, at, all);
    forall found | Gathers(disk, files, at, found) ensures found == all {
      GathersOne(disk, files, at, found, all);
    }
  }

  lemma {:induction false} GathersOne(disk: Disk, files: seq<File>, at: seq<int>, a: seq<Proof>, b: seq<Proof>)
    requires |at| >= |files| && Gathers(disk, files, at, a) && Gathers(disk, files, at, b)
    ensures a == b
    decreases |files|
  {
    if |files| > 0 {
      var n := |files| - 1;
      var m := |disk.proofs(files[n], at[n]).value|;
      GathersOne(disk, files[..n], at, a[..|a| - m], b[..|b| - m]);
      assert a == a[..|a| - m] + a[|a| - m..] && b == b[..|b| - m] + b[|b| - m..];
    }
  }

  /** Every look so far falls between the start and now. */
  ghost predicate Timed(files: seq<File>, at: seq<int>, start: map<File, int>, now: map<File, int>)
    requires |at| <= |files|
  {
    && start.Keys == now.Keys
    && forall i | 0 <= i < |at| && files[i] in now :: files[i] in start && start[files[i]] <= at[i] <= now[files[i]]
  }

  lemma TimedMore(files: seq<File>, at: seq<int>, start: map<File, int>, was: map<File, int>, now: map<File, int>,
      when: int)
    requires |at| < |files| && Timed(files, at, start, was) && Later(start, was) && Later(was, now)
    requires files[|at|] in now ==> files[|at|] in was && was[files[|at|]] <= when <= now[files[|at|]]
    ensures Timed(files, at + [when], start, now) && Later(start, now)
  {
    forall i | 0 <= i <= |at| && files[i] in now
      ensures files[i] in start && start[files[i]] <= (at + [when])[i] <= now[files[i]]
    {
      LaterAt(was, now, files[i]);
      LaterAt(start, was, files[i]);
    }
    forall f | f in start ensures f in now && start[f] <= now[f] {
      LaterFrom(start, was, f);
      LaterFrom(was, now, f);
    }
  }

  lemma LaterAt(was: map<File, int>, now: map<File, int>, f: File)
    requires Later(was, now) && f in now
    ensures f in was && was[f] <= now[f]
  {
    assert f in was.Keys;
  }

  lemma LaterFrom(was: map<File, int>, now: map<File, int>, f: File)
    requires Later(was, now) && f in was
    ensures f in now && was[f] <= now[f]
  {
  }

  lemma LaterAll(start: map<File, int>, was: map<File, int>, now: map<File, int>)
    requires (start == was || Later(start, was)) && Later(was, now)
    ensures Later(start, now)
    ensures forall f | f in now :: f in start && f in was && start[f] <= was[f] <= now[f]
  {
    forall f | f in now ensures f in was && f in start && start[f] <= was[f] <= now[f] {
      LaterAt(was, now, f);
      if start != was { LaterAt(start, was, f); }
    }
  }

  lemma FreshOneMore(proofs: seq<Proof>, p: Proof)
    ensures Fresh(proofs + [p]) <==> Fresh(proofs) && p.marker.event !in EventsOf(proofs)
    ensures EventsOf(proofs + [p]) == EventsOf(proofs) + {p.marker.event}
  {
    var more := proofs + [p];
    if Fresh(more) {
      assert forall i | 0 <= i < |proofs| :: more[i] == proofs[i];
      forall q | q in proofs ensures q.marker.event != p.marker.event {
        var i :| 0 <= i < |proofs| && proofs[i] == q;
        assert more[i].marker.event != more[|proofs|].marker.event;
      }
    }
    if Fresh(proofs) && p.marker.event !in EventsOf(proofs) {
      assert forall i | 0 <= i < |proofs| :: proofs[i] in proofs;
    }
  }

  lemma FreshPrefix(a: seq<Proof>, b: seq<Proof>)
    requires Fresh(a + b)
    ensures Fresh(a)
  {
    assert forall i | 0 <= i < |a| :: (a + b)[i] == a[i];
  }

  /** Add a file's proofs: exactly when none of them completes an event that is
      known or completed by another of them. */
  method Append(found: seq<Proof>, ids: set<EventId>, proofs: seq<Proof>)
    returns (ok: bool, all: seq<Proof>, events: set<EventId>)
    requires ids == EventsOf(found) && Fresh(found)
    ensures ok <==> Fresh(found + proofs)
    ensures ok ==> all == found + proofs && events == EventsOf(all)
  {
    ok, all, events := true, found, ids;
    hide Fresh, EventsOf;
    assert found + proofs[..0] == found;
    for k := 0 to |proofs|
      invariant all == found + proofs[..k] && events == EventsOf(all) && Fresh(all)
    {
      var p := proofs[k];
      FreshOneMore(all, p);
      assert found + proofs[..k + 1] == all + [p];
      if p.marker.event in events {
        if Fresh(found + proofs) {
          assert found + proofs == (found + proofs[..k + 1]) + proofs[k + 1..];
          FreshPrefix(found + proofs[..k + 1], proofs[k + 1..]);
        }
        return false, all, events;
      }
      all := all + [p];
      events := events + {p.marker.event};
    }
    assert proofs[..|proofs|] == proofs;
  }
}
