/** The two event managers: one tells the kernel which of two filters changed (`KqueueEventManager`), the
    other overwrites a whole registration (`EpollEventManager`). Both keep a cached interest per descriptor
    and refine the same map. */
module EventManagers {
  import opened State

  /** `EventInterest`: which readiness is watched for. */
  datatype Interest = Interest(read: bool, write: bool)

  const NONE := Interest(false, false)

  type Interests = map<Fd, Interest>

  // ----- The common meaning -----

  datatype Call = Add(fd: Fd, interest: Interest) | Update(fd: Fd, interest: Interest) | Remove(fd: Fd)

  /** What a successful call does to the descriptor-to-interest map. */
  function Meaning(m: Interests, call: Call): Interests {
    match call
    case Add(fd, interest) => if interest == NONE then m else m[fd := interest]
    case Update(fd, interest) => if interest == NONE then m - {fd} else m[fd := interest]
    case Remove(fd) => m - {fd}
  }

  function MeaningAll(m: Interests, calls: seq<Call>): Interests {
    if calls == [] then m else Meaning(MeaningAll(m, calls[..|calls| - 1]), calls[|calls| - 1])
  }

  /** After any calls a descriptor is watched for what the latest call about it asked, an empty addition not
      counting. */
  lemma {:induction false} LatestCallDecides(m: Interests, calls: seq<Call>, k: nat)
    requires k < |calls| && !(calls[k].Add? && calls[k].interest == NONE)
    requires forall j :: k < j < |calls| && calls[j].fd == calls[k].fd ==> calls[j].Add? && calls[j].interest == NONE
    ensures InterestOf(MeaningAll(m, calls), calls[k].fd) == if calls[k].Remove? then NONE else calls[k].interest
    decreases |calls|
  {
    var n := |calls| - 1;
    if k < n {
      LatestCallDecides(m, calls[..n], k);
    }
  }

  ghost predicate NoneCached(m: Interests) {
    forall fd :: fd in m ==> m[fd] != NONE
  }

  // ----- kqueue -----

  datatype Filter = ReadFilter | WriteFilter

  datatype Registration = Registration(fd: Fd, filter: Filter)

  predicate Watches(i: Interest, f: Filter) {
    if f.ReadFilter? then i.read else i.write
  }

  function InterestOf(m: Interests, fd: Fd): Interest {
    if fd in m then m[fd] else NONE
  }

  /** The kernel holds exactly the filters the cached masks name. */
  ghost predicate InStep(kernel: set<Registration>, m: Interests) {
    forall fd, f :: Registration(fd, f) in kernel <==> Watches(InterestOf(m, fd), f)
  }

  /** `updateFilterIfChanged`: one kernel call if the filter's state differs, which may fail. */
  function ChangeFilter(kernel: set<Registration>, fd: Fd, f: Filter, before: Interest, after: Interest,
                        fails: bool): (set<Registration>, bool) {
    if Watches(before, f) == Watches(after, f) then (kernel, true)
    else if fails then (kernel, false)
    else if Watches(after, f) then (kernel + {Registration(fd, f)}, true)
    else (kernel - {Registration(fd, f)}, true)
  }

  /** `applyInterestChange`: the read filter first; a failure stops there and leaves what was done. */
  function Diff(kernel: set<Registration>, fd: Fd, before: Interest, after: Interest, readFails: bool,
                writeFails: bool): (set<Registration>, bool) {
    var (k, ok) := ChangeFilter(kernel, fd, ReadFilter, before, after, readFails);
    if ok then ChangeFilter(k, fd, WriteFilter, before, after, writeFails) else (k, false)
  }

  /** `removeFd`: delete the filters the cached mask names; one that is missing is ignored. */
  function Forget(kernel: set<Registration>, fd: Fd, cached: Interest): set<Registration> {
    var read := if cached.read then {Registration(fd, ReadFilter)} else {};
    var write := if cached.write then {Registration(fd, WriteFilter)} else {};
    kernel - read - write
  }

  /** A successful diff leaves the kernel in step with the new mask. */
  lemma DiffRefines(kernel: set<Registration>, m: Interests, fd: Fd, after: Interest, readFails: bool, writeFails: bool)
    requires InStep(kernel, m) && Diff(kernel, fd, InterestOf(m, fd), after, readFails, writeFails).1
    ensures InStep(Diff(kernel, fd, InterestOf(m, fd), after, readFails, writeFails).0, m[fd := after])
  {
    var k' := Diff(kernel, fd, InterestOf(m, fd), after, readFails, writeFails).0;
    forall g, f
      ensures Registration(g, f) in k' <==> Watches(InterestOf(m[fd := after], g), f)
    {
      if g != fd {
        assert InterestOf(m[fd := after], g) == InterestOf(m, g);
        assert Registration(g, f) in k' <==> Registration(g, f) in kernel;
      }
    }
  }

  lemma ForgetRefines(kernel: set<Registration>, m: Interests, fd: Fd)
    requires InStep(kernel, m)
    ensures InStep(Forget(kernel, fd, InterestOf(m, fd)), m - {fd})
  {
    var k' := Forget(kernel, fd, InterestOf(m, fd));
    forall g, f
      ensures Registration(g, f) in k' <==> Watches(InterestOf(m - {fd}, g), f)
    {
      assert InterestOf(m - {fd}, g) == if g == fd then NONE else InterestOf(m, g);
      assert Registration(g, f) in kernel <==> Watches(InterestOf(m, g), f);
    }
  }

  /** If the update fails, the removal that follows leaves the kernel in step. */
  ghost predicate Undone(kernel: set<Registration>, m: Interests, fd: Fd, after: Interest, readFails: bool,
                         writeFails: bool) {
    var (partial, ok) := Diff(kernel, fd, InterestOf(m, fd), after, readFails, writeFails);
    !ok ==> InStep(Forget(partial, fd, InterestOf(m, fd)), m - {fd})
  }

  /** An update no failure of which can leave a filter behind: it does not add the read filter before
      changing the write filter. */
  predicate SafeUpdate(before: Interest, after: Interest) {
    before.read || !after.read || before.write == after.write
  }

  /** Whatever the kernel does, a failed update followed by a removal leaves it in step, exactly for the
      updates that are safe. */
  lemma FailedDiffIsUndone(kernel: set<Registration>, m: Interests, fd: Fd, after: Interest)
    requires InStep(kernel, m)
    ensures (forall readFails, writeFails :: Undone(kernel, m, fd, after, readFails, writeFails)) <==>
            SafeUpdate(InterestOf(m, fd), after)
  {
    hide InStep, Diff, Forget;
    var before := InterestOf(m, fd);
    forall readFails, writeFails
      ensures SafeUpdate(before, after) ==> Undone(kernel, m, fd, after, readFails, writeFails)
    {
      if !Diff(kernel, fd, before, after, readFails, writeFails).1 {
        OutcomeIsUndone(kernel, m, fd, after, readFails, writeFails);
      }
    }
    if !SafeUpdate(before, after) {
      OutcomeIsUndone(kernel, m, fd, after, false, true);
      assert !Undone(kernel, m, fd, after, false, true);
    }
  }

  /** One outcome of the kernel: something stays behind exactly if the read filter had just been added when
      the change of the write filter failed. */
  lemma OutcomeIsUndone(kernel: set<Registration>, m: Interests, fd: Fd, after: Interest, readFails: bool,
                        writeFails: bool)
    requires InStep(kernel, m)
    ensures var before := InterestOf(m, fd);
            var (partial, ok) := Diff(kernel, fd, before, after, readFails, writeFails);
            && (ok <==> (before.read == after.read || !readFails) && (before.write == after.write || !writeFails))
            && (!ok ==>
                (InStep(Forget(partial, fd, before), m - {fd}) <==> !(!before.read && after.read && !readFails)))
  {
    var before := InterestOf(m, fd);
    var (partial, ok) := Diff(kernel, fd, before, after, readFails, writeFails);
    var k' := Forget(partial, fd, before);
    if !before.read && after.read && !readFails {
      assert Registration(fd, ReadFilter) in k' && !Watches(InterestOf(m - {fd}, fd), ReadFilter);
    } else if !ok {
      forall g, f
        ensures Registration(g, f) in k' <==> Watches(InterestOf(m - {fd}, g), f)
      {
        assert InterestOf(m - {fd}, g) == if g == fd then NONE else InterestOf(m, g);
        assert Registration(g, f) in kernel <==> Watches(InterestOf(m, g), f);
        assert g != fd ==> (Registration(g, f) in partial <==> Registration(g, f) in kernel);
      }
    }
  }

  /** The case in question: a fresh descriptor, read added, write refused, and the removal finds nothing cached. */
  lemma LeakedFilter(fd: Fd)
    ensures var after := Interest(true, true);
            var (partial, ok) := Diff({}, fd, NONE, after, false, true);
            !ok && Registration(fd, ReadFilter) in Forget(partial, fd, NONE)
  {}

  class KqueueEventManager {
    var interests: Interests
    var kernel: set<Registration>
    var changes: nat
    /** Whether the n-th kernel change fails. */
    const fails: nat -> bool

    ghost predicate Valid()
      reads this
    {
      InStep(kernel, interests) && NoneCached(interests)
    }

    constructor (fails: nat -> bool)
      ensures Valid() && interests == map[] && kernel == {}
    {
      interests, kernel, changes, this.fails := map[], {}, 0, fails;
    }

    method UpdateFilterIfChanged(fd: Fd, before: Interest, after: Interest, f: Filter) returns (ok: bool)
      modifies `kernel, `changes
      ensures (kernel, ok) == ChangeFilter(old(kernel), fd, f, before, after, fails(old(changes)))
      ensures changes == old(changes) + if Watches(before, f) == Watches(after, f) then 0 else 1
    {
      if Watches(before, f) == Watches(after, f) {
        return true;
      }
      changes := changes + 1;
      if fails(changes - 1) {
        return false;
      }
      if Watches(after, f) {
        kernel := kernel + {Registration(fd, f)};
      } else {
        kernel := kernel - {Registration(fd, f)};
      }
      return true;
    }

    method ApplyInterestChange(fd: Fd, before: Interest, after: Interest) returns (ok: bool)
      modifies `kernel, `changes
      ensures (kernel, ok) == Diff(old(kernel), fd, before, after, fails(old(changes)),
                                   fails(old(changes) + if before.read == after.read then 0 else 1))
    {
      ok := UpdateFilterIfChanged(fd, before, after, ReadFilter);
      if ok {
        ok := UpdateFilterIfChanged(fd, before, after, WriteFilter);
      }
    }

    method AddFd(fd: Fd, interest: Interest) returns (ok: bool)
      requires Valid()
      modifies this
      ensures ok ==> Valid() && interests == Meaning(old(interests), Add(fd, interest))
      ensures !ok ==> interests == old(interests)
    {
      if interest == NONE {
        return true;
      }
      if fd in interests {
        ok := UpdateFd(fd, interest);
        return;
      }
      ok := ApplyInterestChange(fd, NONE, interest);
      if ok {
        DiffRefines(old(kernel), interests, fd, interest, fails(old(changes)),
                    fails(old(changes) + if NONE.read == interest.read then 0 else 1));
        interests := interests[fd := interest];
      }
    }

    method UpdateFd(fd: Fd, interest: Interest) returns (ok: bool)
      requires Valid()
      modifies this
      ensures ok ==> Valid() && interests == Meaning(old(interests), Update(fd, interest))
      ensures !ok ==> interests == old(interests)
    {
      var before := InterestOf(interests, fd);
      if interest == NONE {
        RemoveFd(fd);
        return true;
      }
      ok := ApplyInterestChange(fd, before, interest);
      if ok {
        DiffRefines(old(kernel), interests, fd, interest, fails(old(changes)),
                    fails(old(changes) + if before.read == interest.read then 0 else 1));
        interests := interests[fd := interest];
      }
    }

    method RemoveFd(fd: Fd)
      modifies this
      ensures interests == old(interests) - {fd}
      ensures kernel == Forget(old(kernel), fd, InterestOf(old(interests), fd))
      ensures old(Valid()) ==> Valid()
    {
      if InStep(kernel, interests) {
        ForgetRefines(kernel, interests, fd);
      }
      if fd !in interests {
        return;
      }
      if interests[fd].read {
        kernel := kernel - {Registration(fd, ReadFilter)};
      }
      if interests[fd].write {
        kernel := kernel - {Registration(fd, WriteFilter)};
      }
      interests := interests - {fd};
    }

    /** Any sequence of calls that all succeed refines the common meaning. */
    method Replay(calls: seq<Call>) returns (ok: bool)
      requires Valid()
      modifies this
      ensures ok ==> Valid() && interests == MeaningAll(old(interests), calls)
    {
      for i := 0 to |calls|
        invariant Valid() && interests == MeaningAll(old(interests), calls[..i])
      {
        assert calls[..i + 1][..i] == calls[..i];
        match calls[i] {
          case Add(fd, interest) => ok := AddFd(fd, interest);
          case Update(fd, interest) => ok := UpdateFd(fd, interest);
          case Remove(fd) => RemoveFd(fd); ok := true;
        }
        if !ok {
          return;
        }
      }
      assert calls[..|calls|] == calls;
      ok := true;
    }
  }

  // ----- epoll -----

  class EpollEventManager {
    var interests: Interests
    var kernel: Interests
    var controls: nat
    /** Whether the n-th control call fails for a reason of its own. */
    const fails: nat -> bool

    /** The kernel's registrations are the cached ones, after failures too. */
    ghost predicate Valid()
      reads this
    {
      kernel == interests && NoneCached(interests)
    }

    constructor (fails: nat -> bool)
      ensures Valid() && interests == map[]
    {
      interests, kernel, controls, this.fails := map[], map[], 0, fails;
    }

    /** An add fails on a registered descriptor and a modify on an unregistered one; otherwise the mask is
        overwritten. */
    method Control(fd: Fd, adding: bool, interest: Interest) returns (ok: bool)
      modifies `kernel, `controls
      ensures ok <==> !fails(old(controls)) && (adding <==> fd !in old(kernel))
      ensures kernel == if ok then old(kernel)[fd := interest] else old(kernel)
    {
      ok := !fails(controls) && (adding <==> fd !in kernel);
      controls := controls + 1;
      if ok {
        kernel := kernel[fd := interest];
      }
    }

    method AddFd(fd: Fd, interest: Interest) returns (ok: bool)
      requires Valid()
      modifies this
      ensures Valid()
      ensures interests == if ok then Meaning(old(interests), Add(fd, interest)) else old(interests)
      decreases if fd in interests then 1 else 0
    {
      if interest == NONE {
        return true;
      }
      if fd in interests {
        ok := UpdateFd(fd, interest);
        return;
      }
      ok := Control(fd, true, interest);
      if ok {
        interests := interests[fd := interest];
      }
    }

    method UpdateFd(fd: Fd, interest: Interest) returns (ok: bool)
      requires Valid()
      modifies this
      ensures Valid()
      ensures interests == if ok then Meaning(old(interests), Update(fd, interest)) else old(interests)
      decreases if fd in interests then 0 else 1
    {
      if interest == NONE {
        RemoveFd(fd);
        return true;
      }
      if fd !in interests {
        ok := AddFd(fd, interest);
        return;
      }
      ok := Control(fd, false, interest);
      if ok {
        interests := interests[fd := interest];
      }
    }

    method RemoveFd(fd: Fd)
      requires Valid()
      modifies this
      ensures Valid() && interests == Meaning(old(interests), Remove(fd))
    {
      if fd !in interests {
        return;
      }
      kernel := kernel - {fd};
      interests := interests - {fd};
    }

    method Replay(calls: seq<Call>) returns (ok: bool)
      requires Valid()
      modifies this
      ensures Valid() && (ok ==> interests == MeaningAll(old(interests), calls))
    {
      for i := 0 to |calls|
        invariant Valid() && interests == MeaningAll(old(interests), calls[..i])
      {
        assert calls[..i + 1][..i] == calls[..i];
        match calls[i] {
          case Add(fd, interest) => ok := AddFd(fd, interest);
          case Update(fd, interest) => ok := UpdateFd(fd, interest);
          case Remove(fd) => RemoveFd(fd); ok := true;
        }
        if !ok {
          return;
        }
      }
      assert calls[..|calls|] == calls;
      ok := true;
    }
  }
}
