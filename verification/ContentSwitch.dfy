/** The Content Tool's version switch on one Workshop item: a link, a temporary and a backup link,
    and the records current.json, previous.json and pending.json, changed one file operation at a
    time. Any operation may fail without effect, or the process may die before or after it. */
module ContentSwitch {
  import opened Facts

  // Names in the addon directory. A switch makes its temporary and backup names from a fresh suffix.
  datatype Name = LinkName | TempName(suffix: nat) | BackupName(suffix: nat)

  // What a name is: a link to the release of a version, a link to anything else, or a real directory.
  datatype Entry = LinkTo(version: string) | Elsewhere | RealDirectory

  // pending.json
  datatype Transition = Transition(was: string, next: string, temp: Name, backup: Name, rollback: bool)

  datatype State = State(
    at: map<Name, Entry>, current: Option<string>, previous: Option<string>, pending: Option<Transition>)

  // What befalls one file operation.
  datatype Outcome = Works | Fails | DiesBefore | DiesAfter

  datatype Status = Done | Error | Dead

  // Operations nothing befalls work.
  function Coming(os: seq<Outcome>): Outcome {
    if os == [] then Works else os[0]
  }

  function Later(os: seq<Outcome>): seq<Outcome> {
    if os == [] then [] else os[1..]
  }

  function StatusOf(o: Outcome): Status {
    match o case Works => Done case Fails => Error case _ => Dead
  }

  // Everything works but the fifth operation, the removal of previous.json after a rollback.
  const STALE := [Works, Works, Works, Works, Fails]

  // The same, and then the process dies just after it has removed the record.
  const STALE_DEATH := STALE + [Works, Works, Works, Works, DiesAfter]

  // ---- What the records and links may look like ----

  predicate LinksTo(d: State, n: Name, v: string) {
    n in d.at && d.at[n] == LinkTo(v)
  }

  // No transition is recorded, and link and current.json agree on v ("" for not switched yet).
  predicate SettledAt(d: State, v: string) {
    d.pending.None? && if v == "" then d.current.None? && LinkName !in d.at else d.current == Some(v) && LinksTo(d, LinkName, v)
  }

  predicate Sound(releases: set<string>, p: Transition) {
    && p.next in releases && p.next != "" && p.next != p.was && (p.was != "" ==> p.was in releases)
    && p.temp.TempName? && p.backup.BackupName?
  }

  // The old release can be reached through the link or through the backup.
  predicate OldReachable(d: State, p: Transition) {
    if p.was == "" then LinkName !in d.at && p.backup !in d.at
    else (LinksTo(d, LinkName, p.was) && p.backup !in d.at) || (LinkName !in d.at && LinksTo(d, p.backup, p.was))
  }

  function Known(v: string): Option<string> {
    if v == "" then None else Some(v)
  }

  // The transition is recorded and the temporary link has not been renamed to the link.
  predicate OldKept(releases: set<string>, d: State, p: Transition) {
    && Sound(releases, p) && d.pending == Some(p) && d.current == Known(p.was)
    && (p.temp in d.at ==> LinksTo(d, p.temp, p.next))
    && OldReachable(d, p)
  }

  // The transition is recorded and the rename has happened.
  predicate NewLinked(releases: set<string>, d: State, p: Transition) {
    && Sound(releases, p) && d.pending == Some(p)
    && (d.current == Known(p.was) || d.current == Some(p.next))
    && LinksTo(d, LinkName, p.next) && p.temp !in d.at
    && (p.backup in d.at ==> p.was != "" && LinksTo(d, p.backup, p.was))
  }

  // previous.json after the switch: the version left behind, and none after a rollback or a first switch.
  function NewPrevious(p: Transition): Option<string> {
    if p.rollback || p.was == "" then None else Some(p.was)
  }

  // Only the three names of the transition may differ.
  ghost predicate SameElsewhere(d: State, e: State, p: Transition) {
    forall n :: n != LinkName && n != p.temp && n != p.backup ==> (n in e.at <==> n in d.at) && (n in d.at ==> e.at[n] == d.at[n])
  }

  predicate Cleared(d: State, p: Transition) {
    p.temp !in d.at && p.backup !in d.at
  }

  // What one recovery attempt may leave of a transition whose rename has happened ...
  ghost predicate Forward(releases: set<string>, d: State, e: State, p: Transition, st: Status, forgot: bool) {
    && SameElsewhere(d, e, p) && (forgot ==> NewPrevious(p).None?)
    && (st.Done? ==> SettledAt(e, p.next) && Cleared(e, p) && Recorded(d, e, p, forgot))
    && (!st.Done? ==>
          && (e.previous == d.previous || e.previous == NewPrevious(p))
          && (NewLinked(releases, e, p) || (SettledAt(e, p.next) && Cleared(e, p) && Recorded(d, e, p, forgot))))
  }

  // The record is gone, and previous.json is what the switch promises unless its removal failed.
  predicate Recorded(d: State, e: State, p: Transition, forgot: bool) {
    e.previous == if forgot then d.previous else NewPrevious(p)
  }

  // ... and of one whose rename has not: previous.json is never touched.
  ghost predicate Back(releases: set<string>, d: State, e: State, p: Transition, st: Status) {
    && SameElsewhere(d, e, p) && e.previous == d.previous
    && (st.Done? ==> SettledAt(e, p.was) && Cleared(e, p))
    && (!st.Done? ==> OldKept(releases, e, p) || (SettledAt(e, p.was) && Cleared(e, p)))
  }

  ghost predicate RecoverStep(releases: set<string>, d: State, e: State, st: Status, forgot: bool) {
    match d.pending
    case None => e == d && !forgot
    case Some(p) =>
      && (NewLinked(releases, d, p) ==> Forward(releases, d, e, p, st, forgot))
      && (OldKept(releases, d, p) ==> Back(releases, d, e, p, st))
  }

  // What Carry may leave of the settled state d: the new version, the old one, or a recorded transition.
  ghost predicate Carried(releases: set<string>, d: State, e: State, p: Transition, st: Status, forgot: bool) {
    && SameElsewhere(d, e, p) && (forgot ==> NewPrevious(p).None?)
    && (st.Done? ==> SettledAt(e, p.next) && Cleared(e, p) && Recorded(d, e, p, forgot))
    && (!st.Done? ==>
          || (SettledAt(e, p.was) && e.previous == d.previous && p.backup !in e.at)
          || (OldKept(releases, e, p) && e.previous == d.previous)
          || (NewLinked(releases, e, p) && (e.previous == d.previous || e.previous == NewPrevious(p)))
          || (SettledAt(e, p.next) && Cleared(e, p) && Recorded(d, e, p, forgot)))
  }

  // Nothing in the addon directory, and no record, uses the suffix yet.
  predicate FreshSuffix(d: State, suffix: nat) {
    && BackupName(suffix) !in d.at
    && (d.pending.Some? ==> d.pending.value.temp != TempName(suffix) && d.pending.value.backup != BackupName(suffix))
  }

  // The version a call asks for.
  function Wanted(d: State, version: string, rollback: bool): string {
    if !rollback then version else if d.previous.Some? then d.previous.value else ""
  }

  ghost predicate Switched(releases: set<string>, d: State, e: State, v: string, wanted: string, suffix: nat, rollback: bool,
                           st: Status, forgot: bool) {
    var p := Transition(v, wanted, TempName(suffix), BackupName(suffix), rollback);
    if wanted == v || wanted == "" || wanted !in releases then
      && e.at == d.at && e.current == d.current && e.pending == d.pending
      && (e.previous == d.previous || (rollback && wanted == v && e.previous.None?))
      && (st.Done? ==> wanted == v && v != "" && (rollback ==> forgot || e.previous.None?))
    else Carried(releases, d, e, p, st, forgot)
  }

  // Every state the tool ever leaves, dead or alive: settled on a prepared release (or on none yet),
  // or a recorded transition that recovery can finish.
  predicate Whole(releases: set<string>, d: State) {
    match d.pending
    case None => if d.current.Some? then SettledAt(d, d.current.value) && d.current.value in releases else SettledAt(d, "")
    case Some(p) => OldKept(releases, d, p) || NewLinked(releases, d, p)
  }

  // What an undisturbed switch to v needs: a state the tool left, a prepared release and an unused suffix.
  predicate Ready(releases: set<string>, d: State, v: string, suffix: nat) {
    Whole(releases, d) && v != "" && v in releases && FreshSuffix(d, suffix) && TempName(suffix) !in d.at
  }

  lemma RecoveredWhole(releases: set<string>, d: State, e: State, st: Status, forgot: bool, suffix: nat)
    requires RecoverStep(releases, d, e, st, forgot) && Whole(releases, d) && FreshSuffix(d, suffix)
    ensures Whole(releases, e) && FreshSuffix(e, suffix) && (st.Done? ==> e.pending.None?)
  {
  }

  // A completed switch settles on the version asked for.
  lemma SwitchedSettles(releases: set<string>, d: State, e: State, wanted: string, suffix: nat, rollback: bool, st: Status, forgot: bool)
    requires Whole(releases, d) && d.pending.None? && FreshSuffix(d, suffix) && st.Done?
    requires forall v :: SettledAt(d, v) && (v == "" || v in releases) && FreshSuffix(d, suffix) ==>
      Switched(releases, d, e, v, wanted, suffix, rollback, st, forgot)
    ensures SettledAt(e, wanted)
  {
    var v := if d.current.Some? then d.current.value else "";
    assert Switched(releases, d, e, v, wanted, suffix, rollback, st, forgot);
  }

  lemma SwitchedWhole(releases: set<string>, d: State, e: State, wanted: string, suffix: nat, rollback: bool, st: Status, forgot: bool)
    requires Whole(releases, d) && d.pending.None?
    requires forall v :: SettledAt(d, v) && (v == "" || v in releases) && FreshSuffix(d, suffix) ==>
      Switched(releases, d, e, v, wanted, suffix, rollback, st, forgot)
    requires FreshSuffix(d, suffix)
    ensures Whole(releases, e)
  {
    var v := if d.current.Some? then d.current.value else "";
    assert Switched(releases, d, e, v, wanted, suffix, rollback, st, forgot);
  }

  class Tool {
    const releases: set<string>       // prepared releases, which stay intact
    var at: map<Name, Entry>
    var current: Option<string>
    var previous: Option<string>
    var pending: Option<Transition>
    var locked: bool                  // the lock file
    var outcomes: seq<Outcome>        // what will befall the coming file operations

    constructor (releases: set<string>, at: map<Name, Entry>, current: Option<string>, previous: Option<string>,
                 pending: Option<Transition>, outcomes: seq<Outcome>)
      ensures this.releases == releases && Now() == State(at, current, previous, pending) && !locked && this.outcomes == outcomes
    {
      this.releases, this.at, this.current, this.previous, this.pending := releases, at, current, previous, pending;
      this.locked, this.outcomes := false, outcomes;
    }

    function Now(): State
      reads this
    {
      State(at, current, previous, pending)
    }

    method Meet() returns (o: Outcome)
      modifies `outcomes
      ensures o == Coming(old(outcomes)) && outcomes == Later(old(outcomes))
    {
      if outcomes == [] { return Works; }
      o := outcomes[0];
      outcomes := outcomes[1..];
    }

    // ---- File operations ----

    method Read() returns (st: Status)
      modifies `outcomes
      ensures st == StatusOf(Coming(old(outcomes))) && outcomes == Later(old(outcomes))
    {
      var o := Meet();
      st := StatusOf(o);
    }

    method Remove(n: Name) returns (st: Status)
      modifies `at, `outcomes
      ensures st == StatusOf(Coming(old(outcomes))) && outcomes == Later(old(outcomes))
      ensures st.Done? ==> at == old(at) - {n}
      ensures st.Error? ==> at == old(at)
      ensures st.Dead? ==> at == old(at) || at == old(at) - {n}
    {
      var o := Meet();
      if o.Works? || o.DiesAfter? { at := at - {n}; }
      st := StatusOf(o);
    }

    method Rename(from: Name, to: Name) returns (st: Status)
      requires from in at
      modifies `at, `outcomes
      ensures st == StatusOf(Coming(old(outcomes))) && outcomes == Later(old(outcomes))
      ensures st.Done? ==> at == (old(at) - {from})[to := old(at)[from]]
      ensures st.Error? ==> at == old(at)
      ensures st.Dead? ==> at == old(at) || at == (old(at) - {from})[to := old(at)[from]]
    {
      var o := Meet();
      if o.Works? || o.DiesAfter? { at := (at - {from})[to := at[from]]; }
      st := StatusOf(o);
    }

    // A link is never made over an existing name.
    method MakeLink(n: Name, v: string) returns (st: Status)
      modifies `at, `outcomes
      ensures outcomes == Later(old(outcomes)) && (Coming(old(outcomes)).Works? && n !in old(at) ==> st.Done?)
      ensures st.Done? ==> n !in old(at) && at == old(at)[n := LinkTo(v)]
      ensures st.Error? ==> at == old(at)
      ensures st.Dead? ==> at == old(at) || (n !in old(at) && at == old(at)[n := LinkTo(v)])
    {
      var o := Meet();
      if n in at { return if o.Works? || o.Fails? then Error else Dead; }
      if o.Works? || o.DiesAfter? { at := at[n := LinkTo(v)]; }
      st := StatusOf(o);
    }

    // Records are replaced as a whole: a temporary file is written, synced and renamed.
    method SetCurrent(v: string) returns (st: Status)
      modifies `current, `outcomes
      ensures st == StatusOf(Coming(old(outcomes))) && outcomes == Later(old(outcomes))
      ensures st.Done? ==> current == Some(v)
      ensures st.Error? ==> current == old(current)
      ensures st.Dead? ==> current == old(current) || current == Some(v)
    {
      var o := Meet();
      if o.Works? || o.DiesAfter? { current := Some(v); }
      st := StatusOf(o);
    }

    method SetPrevious(v: Option<string>) returns (st: Status)
      modifies `previous, `outcomes
      ensures st == StatusOf(Coming(old(outcomes))) && outcomes == Later(old(outcomes))
      ensures st.Done? ==> previous == v
      ensures st.Error? ==> previous == old(previous)
      ensures st.Dead? ==> previous == old(previous) || previous == v
    {
      var o := Meet();
      if o.Works? || o.DiesAfter? { previous := v; }
      st := StatusOf(o);
    }

    method SetPending(p: Option<Transition>) returns (st: Status)
      modifies `pending, `outcomes
      ensures st == StatusOf(Coming(old(outcomes))) && outcomes == Later(old(outcomes))
      ensures st.Done? ==> pending == p
      ensures st.Error? ==> pending == old(pending)
      ensures st.Dead? ==> pending == old(pending) || pending == p
      ensures Coming(old(outcomes)).DiesAfter? ==> pending == p
    {
      var o := Meet();
      if o.Works? || o.DiesAfter? { pending := p; }
      st := StatusOf(o);
    }

    // ---- Known links ----

    method SameLinkedDirectory(n: Name, v: string) returns (same: bool, st: Status)
      modifies `outcomes
      ensures st.Done? ==> (same <==> LinksTo(Now(), n, v)) && (n in at ==> !at[n].RealDirectory?)
      ensures outcomes == Later(old(outcomes))
      ensures Coming(old(outcomes)).Works? && (n in at ==> !at[n].RealDirectory?) ==> st.Done?
    {
      same := false;
      st := Read();
      if !st.Done? || n !in at { return; }
      if at[n].RealDirectory? { return false, Error; }
      same := at[n] == LinkTo(v);
    }

    // Remove a link only if it is the one the record says.
    method RemoveKnownLink(n: Name, v: string) returns (st: Status)
      modifies `at, `outcomes
      ensures st.Done? ==> at == old(at) - {n} && (n in old(at) ==> old(at)[n] == LinkTo(v))
      ensures st.Error? ==> at == old(at)
      ensures st.Dead? ==> at == old(at) || (LinksTo(old(Now()), n, v) && at == old(at) - {n})
      ensures [Works, Works] <= old(outcomes) && (n in old(at) ==> old(at)[n] == LinkTo(v)) ==> st.Done? && outcomes == old(outcomes)[2..]
      ensures old(outcomes) == [] && (n in old(at) ==> old(at)[n] == LinkTo(v)) ==> st.Done? && outcomes == []
    {
      var same;
      same, st := SameLinkedDirectory(n, v);
      if !st.Done? { return; }
      if !same {
        st := Read();
        if st.Done? && n in at { st := Error; }
        assert n !in at ==> at - {n} == at;
        return;
      }
      st := Remove(n);
    }

    // ---- Recovery ----

    // recoverTransition. `forgot` is the one failure it ignores: previous.json was not removed.
    method Recover() returns (st: Status, forgot: bool)
      modifies `at, `current, `previous, `pending, `outcomes
      ensures RecoverStep(releases, old(Now()), Now(), st, forgot)
      ensures old(outcomes) == [] && Whole(releases, old(Now())) ==> st.Done? && !forgot && outcomes == []
      ensures old(pending).Some? && NewLinked(releases, old(Now()), old(pending).value) && NewPrevious(old(pending).value).None?
              && old(outcomes) == STALE ==>
                st.Done? && forgot
      ensures old(pending).Some? && NewLinked(releases, old(Now()), old(pending).value) && old(pending).value.rollback
              && old(pending).value.was != "" && old(outcomes) == STALE_DEATH ==>
                st.Dead? && forgot && pending.None? && outcomes == []
    {
      forgot := false;
      st := Read();
      if !st.Done? || pending.None? { return; }
      var p := pending.value;
      if p.next == "" || !p.temp.TempName? || !p.backup.BackupName? { return Error, false; }
      var newCurrent;
      newCurrent, st := SameLinkedDirectory(LinkName, p.next);
      if !st.Done? { return; }
      if newCurrent {
        st, forgot := RollForward(p);
      } else {
        st := RollBack(p);
      }
    }

    method RollForward(p: Transition) returns (st: Status, forgot: bool)
      requires pending == Some(p)
      modifies `at, `current, `previous, `pending, `outcomes
      ensures NewLinked(releases, old(Now()), p) ==> Forward(releases, old(Now()), Now(), p, st, forgot)
      ensures old(outcomes) == [] && NewLinked(releases, old(Now()), p) ==> st.Done? && !forgot && outcomes == []
      ensures old(outcomes) == STALE[2..] && NewLinked(releases, old(Now()), p) && NewPrevious(p).None? ==> st.Done? && forgot
      ensures old(outcomes) == STALE_DEATH[2..] && NewLinked(releases, old(Now()), p) && p.rollback && p.was != "" ==>
        st.Dead? && forgot && pending.None? && outcomes == []
    {
      st, forgot := WriteRecords(p);
      if !st.Done? { return; }
      st := ClearLinks(p);
    }

    // current.json and previous.json, in this order.
    method WriteRecords(p: Transition) returns (st: Status, forgot: bool)
      modifies `current, `previous, `outcomes
      ensures current == old(current) || current == Some(p.next)
      ensures previous == old(previous) || previous == NewPrevious(p)
      ensures st.Done? ==> current == Some(p.next) && previous == if forgot then old(previous) else NewPrevious(p)
      ensures forgot ==> NewPrevious(p).None?
      ensures old(outcomes) == [] && p.next in releases ==> st.Done? && !forgot && outcomes == []
      ensures STALE[2..] <= old(outcomes) && p.next in releases && NewPrevious(p).None? ==>
        st.Done? && forgot && outcomes == old(outcomes)[3..]
    {
      forgot := false;
      st := Read();
      if !st.Done? { return; }
      if p.next !in releases { return Error, false; }
      st := SetCurrent(p.next);
      if !st.Done? { return; }
      if p.rollback || p.was == "" {
        st := SetPrevious(None);
        forgot := st.Error?;
        if forgot { st := Done; }
      } else {
        st := SetPrevious(Some(p.was));
      }
    }

    // The backup link, the temporary link, then the record itself.
    method ClearLinks(p: Transition) returns (st: Status)
      modifies `at, `pending, `outcomes
      ensures NewLinked(releases, old(Now()), p) && old(current) == Some(p.next) ==>
        && SameElsewhere(old(Now()), Now(), p)
        && (st.Done? ==> SettledAt(Now(), p.next) && Cleared(Now(), p))
        && (!st.Done? ==> NewLinked(releases, Now(), p) || (SettledAt(Now(), p.next) && Cleared(Now(), p)))
        && (old(outcomes) == [] ==> st.Done? && outcomes == [])
        && (old(outcomes) == STALE_DEATH[5..] && p.was != "" ==> st.Dead? && pending.None? && outcomes == [])
    {
      if p.was != "" {
        st := RemoveKnownLink(p.backup, p.was);
        if !st.Done? { return; }
      }
      st := RemoveKnownLink(p.temp, p.next);
      if !st.Done? { return; }
      st := SetPending(None);
    }

    method RollBack(p: Transition) returns (st: Status)
      requires pending == Some(p) && !LinksTo(Now(), LinkName, p.next)
      modifies `at, `pending, `outcomes
      ensures OldKept(releases, old(Now()), p) ==> Back(releases, old(Now()), Now(), p, st)
      ensures old(outcomes) == [] && OldKept(releases, old(Now()), p) ==> st.Done? && outcomes == []
    {
      st := Relink(p);
      if !st.Done? { return; }
      st := RemoveKnownLink(p.temp, p.next);
      if !st.Done? { return; }
      st := SetPending(None);
    }

    // The old release is linked again, from the backup if need be.
    method Relink(p: Transition) returns (st: Status)
      modifies `at, `outcomes
      ensures OldKept(releases, old(Now()), p) ==>
        && OldKept(releases, Now(), p) && SameElsewhere(old(Now()), Now(), p)
        && (st.Done? ==> p.backup !in at && if p.was == "" then LinkName !in at else LinksTo(Now(), LinkName, p.was))
        && (old(outcomes) == [] ==> st.Done? && outcomes == [])
    {
      if p.was != "" {
        var oldCurrent;
        oldCurrent, st := SameLinkedDirectory(LinkName, p.was);
        if !st.Done? { return; }
        if !oldCurrent {
          var backupMatches;
          backupMatches, st := SameLinkedDirectory(p.backup, p.was);
          if !st.Done? { return; }
          if !backupMatches { return Error; }
          st := Read();
          if !st.Done? { return; }
          if LinkName in at { return Error; }
          st := Rename(p.backup, LinkName);
          if !st.Done? { return; }
        }
      } else {
        st := Read();
        if !st.Done? { return; }
        if LinkName in at { return Error; }
      }
    }

    // ---- Switching ----

    // current: link and current.json must agree, and the release must be prepared.
    method ReadCurrent() returns (v: string, st: Status)
      modifies `outcomes
      ensures st.Done? ==> if v == "" then current.None? && LinkName !in at
                           else current == Some(v) && LinksTo(Now(), LinkName, v) && v in releases
      ensures old(outcomes) == [] && Whole(releases, Now()) && pending.None? ==> st.Done? && outcomes == []
    {
      v := "";
      st := Read();
      if !st.Done? { return; }
      match current {
        case None => if LinkName in at { st := Error; }
        case Some(named) =>
          if named == "" || named !in releases || LinkName !in at || at[LinkName] != LinkTo(named) { st := Error; } else { v := named; }
      }
    }

    method Lock() returns (st: Status)
      modifies `locked, `outcomes
      ensures outcomes == Later(old(outcomes)) && (Coming(old(outcomes)).Works? && !old(locked) ==> st.Done?)
      ensures st.Done? ==> !old(locked) && locked
      ensures st.Error? ==> locked == old(locked)
    {
      var o := Meet();
      if locked { return if o.Works? || o.Fails? then Error else Dead; }
      if o.Works? || o.DiesAfter? { locked := true; }
      st := StatusOf(o);
    }

    // The deferred unlock: a failure is ignored, a dead process leaves the lock for an operator.
    method Unlock() returns (st: Status)
      modifies `locked, `outcomes
      ensures Coming(old(outcomes)).Works? ==> st.Done? && !locked
      ensures Coming(old(outcomes)).Fails? ==> st.Done? && locked == old(locked)
    {
      var o := Meet();
      if o.Works? || o.DiesAfter? { locked := false; }
      st := if o.Works? || o.Fails? then Done else Dead;
    }

    // The two renames, from a recorded transition whose temporary link is in place.
    method SwapLinks(p: Transition) returns (st: Status)
      requires p.temp.TempName? && p.backup.BackupName? && p.temp in at && (p.was != "" ==> LinkName in at)
      modifies `at, `outcomes
      ensures OldKept(releases, old(Now()), p) ==>
        && SameElsewhere(old(Now()), Now(), p)
        && (if st.Done? then NewLinked(releases, Now(), p)
            else if st.Error? then OldKept(releases, Now(), p)
            else OldKept(releases, Now(), p) || NewLinked(releases, Now(), p))
      ensures old(outcomes) == [] ==> st.Done? && outcomes == []
    {
      if p.was != "" {
        st := Rename(LinkName, p.backup);
        if !st.Done? { return; }
      }
      st := Rename(p.temp, LinkName);
    }

    // The temporary link, then the record.
    method Record(p: Transition) returns (st: Status)
      requires p.temp.TempName? && p.backup.BackupName?
      modifies `at, `pending, `outcomes
      ensures Sound(releases, p) && SettledAt(old(Now()), p.was) && p.backup !in old(at) ==>
        && SameElsewhere(old(Now()), Now(), p) && p.backup !in at
        && (st.Done? ==> OldKept(releases, Now(), p))
        && (!st.Done? ==> SettledAt(Now(), p.was) || OldKept(releases, Now(), p))
      ensures st.Done? ==> p.temp in at
      ensures old(outcomes) == [] && p.temp !in old(at) ==> st.Done? && outcomes == []
    {
      st := MakeLink(p.temp, p.next);
      if !st.Done? { return; }
      st := SetPending(Some(p));
      if st.Error? {
        var ignored := Remove(p.temp);
        if ignored.Dead? { st := Dead; }
      }
    }

    // The renames, recovery, and the read-back.
    method Finish(p: Transition) returns (st: Status, forgot: bool)
      requires p.temp.TempName? && p.backup.BackupName? && p.temp in at && (p.was != "" ==> LinkName in at)
      modifies `at, `current, `previous, `pending, `outcomes
      ensures OldKept(releases, old(Now()), p) ==>
        Carried(releases, old(Now()), Now(), p, st, forgot) && (old(outcomes) == [] ==> st.Done? && outcomes == [])
    {
      forgot := false;
      st := SwapLinks(p);
      if st.Dead? { return; }
      if st.Error? {
        var ignored, none := Recover();
        return if ignored.Dead? then Dead else Error, false;
      }
      st, forgot := Recover();
      if !st.Done? { return; }
      var v;
      v, st := ReadCurrent();
      if st.Done? && v != p.next { st := Error; }
    }

    // switchVersion from its first write on: temporary link, record, renames, recovery, read-back.
    method Carry(p: Transition) returns (st: Status, forgot: bool)
      modifies `at, `current, `previous, `pending, `outcomes
      ensures Sound(releases, p) && SettledAt(old(Now()), p.was) && p.backup !in old(at) ==>
        Carried(releases, old(Now()), Now(), p, st, forgot) && (old(outcomes) == [] && p.temp !in old(at) ==> st.Done? && outcomes == [])
    {
      forgot := false;
      if !(p.temp.TempName? && p.backup.BackupName?) { return Error, false; }
      st := Record(p);
      if !st.Done? { return; }
      if p.was != "" && LinkName !in at { return Error, false; }
      st, forgot := Finish(p);
    }

    // switchVersion. Switch gives a version; Rollback takes it from previous.json.
    method SwitchVersion(version: string, rollback: bool, suffix: nat) returns (st: Status, forgot: bool)
      modifies this
      ensures Whole(releases, old(Now())) && FreshSuffix(old(Now()), suffix) ==> Whole(releases, Now())
      ensures forall v :: SettledAt(old(Now()), v) && (v == "" || v in releases) && FreshSuffix(old(Now()), suffix) ==>
        Switched(releases, old(Now()), Now(), v, Wanted(old(Now()), version, rollback), suffix, rollback, st, forgot)
      ensures Whole(releases, old(Now())) && FreshSuffix(old(Now()), suffix) && !rollback && st.Done? ==> SettledAt(Now(), version)
      ensures old(outcomes) == [] && !old(locked) && !rollback && Ready(releases, old(Now()), version, suffix) ==> st.Done? && !locked
    {
      forgot := false;
      if !rollback && version == "" { return Error, false; }
      st := Lock();
      if !st.Done? { return; }
      st, forgot := SwitchLocked(version, rollback, suffix);
      if st.Dead? { return; }
      var unlocked := Unlock();
      if unlocked.Dead? { st := Dead; }
    }

    method SwitchLocked(version: string, rollback: bool, suffix: nat) returns (st: Status, forgot: bool)
      modifies this
      ensures Whole(releases, old(Now())) && FreshSuffix(old(Now()), suffix) ==> Whole(releases, Now())
      ensures forall v :: SettledAt(old(Now()), v) && (v == "" || v in releases) && FreshSuffix(old(Now()), suffix) ==>
        Switched(releases, old(Now()), Now(), v, Wanted(old(Now()), version, rollback), suffix, rollback, st, forgot)
      ensures Whole(releases, old(Now())) && FreshSuffix(old(Now()), suffix) && !rollback && st.Done? ==> SettledAt(Now(), version)
      ensures old(outcomes) == [] && !rollback && Ready(releases, old(Now()), version, suffix) ==> st.Done? && outcomes == []
    {
      ghost var was := Now();
      st, forgot := Recover();
      if Whole(releases, was) && FreshSuffix(was, suffix) { RecoveredWhole(releases, was, Now(), st, forgot, suffix); }
      if !st.Done? { return; }
      st, forgot := SwitchSettled(version, rollback, suffix);
    }

    method SwitchSettled(version: string, rollback: bool, suffix: nat) returns (st: Status, forgot: bool)
      modifies this
      ensures Whole(releases, old(Now())) && old(pending).None? && FreshSuffix(old(Now()), suffix) ==> Whole(releases, Now())
      ensures forall v :: SettledAt(old(Now()), v) && (v == "" || v in releases) && FreshSuffix(old(Now()), suffix) ==>
        Switched(releases, old(Now()), Now(), v, Wanted(old(Now()), version, rollback), suffix, rollback, st, forgot)
      ensures old(outcomes) == [] && old(pending).None? && Ready(releases, old(Now()), Wanted(old(Now()), version, rollback), suffix) ==>
        st.Done? && outcomes == []
      ensures Whole(releases, old(Now())) && old(pending).None? && FreshSuffix(old(Now()), suffix) && st.Done? ==>
        SettledAt(Now(), Wanted(old(Now()), version, rollback))
    {
      ghost var before := Now();
      st, forgot := SwitchTo(version, rollback, suffix);
      if Whole(releases, before) && before.pending.None? && FreshSuffix(before, suffix) {
        SwitchedWhole(releases, before, Now(), Wanted(before, version, rollback), suffix, rollback, st, forgot);
        if st.Done? { SwitchedSettles(releases, before, Now(), Wanted(before, version, rollback), suffix, rollback, st, forgot); }
      }
    }

    method SwitchTo(version: string, rollback: bool, suffix: nat) returns (st: Status, forgot: bool)
      modifies this
      ensures forall v :: SettledAt(old(Now()), v) && (v == "" || v in releases) && FreshSuffix(old(Now()), suffix) ==>
        Switched(releases, old(Now()), Now(), v, Wanted(old(Now()), version, rollback), suffix, rollback, st, forgot)
      ensures old(outcomes) == [] && old(pending).None? && Ready(releases, old(Now()), Wanted(old(Now()), version, rollback), suffix) ==>
        st.Done? && outcomes == []
    {
      forgot := false;
      var wanted := version;
      st := Read();
      if !st.Done? { return; }
      if rollback {
        if previous.None? { return Error, false; }
        wanted := previous.value;
      }
      if wanted == "" || wanted !in releases { return Error, false; }
      var was;
      was, st := ReadCurrent();
      if !st.Done? { return; }
      if was == wanted {
        if rollback {
          var removed := SetPrevious(None);
          forgot := removed.Error?;
          if removed.Dead? { st := Dead; }
        }
        return;
      }
      st, forgot := Carry(Transition(was, wanted, TempName(suffix), BackupName(suffix), rollback));
    }
  }

  // ---- Over any number of attempts ----

  datatype Attempt = Attempt(end: State, st: Status, forgot: bool)

  // Recovery attempts one after another, each from where the last one ended.
  ghost predicate Chain(releases: set<string>, d: State, tries: seq<Attempt>)
    decreases |tries|
  {
    tries != [] ==>
      && RecoverStep(releases, d, tries[0].end, tries[0].st, tries[0].forgot)
      && Chain(releases, tries[0].end, tries[1..])
  }

  // The state attempt i starts from.
  function Before(d: State, tries: seq<Attempt>, i: nat): State
    requires i <= |tries|
  {
    if i == 0 then d else tries[i-1].end
  }

  // Attempt i is the one that removes the record.
  predicate Removes(d: State, tries: seq<Attempt>, i: nat)
    requires i < |tries|
  {
    Before(d, tries, i).pending.Some? && tries[i].end.pending.None?
  }

  // The removing attempt was asked to remove previous.json, failed to, and there was one.
  predicate LeftStale(d: State, tries: seq<Attempt>, i: nat)
    requires i < |tries|
  {
    tries[i].forgot && Before(d, tries, i).previous.Some?
  }

  // From a recorded transition, and through any crashes and failures of recovery itself, a completed recovery
  // settles on the new version exactly when the rename had happened, and otherwise on the old one; it removes the
  // record and the two links it names, and touches no other name. previous.json is untouched on the way back, and on
  // the way forward it is what the switch promises if and only if the attempt that removed the record left no stale one.
  lemma {:induction false} RecoveryCompletes(releases: set<string>, d: State, p: Transition, tries: seq<Attempt>) returns (i: nat)
    requires d.pending == Some(p) && (OldKept(releases, d, p) || NewLinked(releases, d, p))
    requires Chain(releases, d, tries) && tries != [] && tries[|tries| - 1].st.Done?
    ensures i < |tries| && Removes(d, tries, i)
    ensures var e := tries[|tries| - 1].end;
            && SettledAt(e, if NewLinked(releases, d, p) then p.next else p.was)
            && Cleared(e, p) && SameElsewhere(d, e, p)
            && (OldKept(releases, d, p) ==> e.previous == d.previous)
            && (NewLinked(releases, d, p) ==> (e.previous == NewPrevious(p) <==> !LeftStale(d, tries, i)))
    decreases |tries|
  {
    var t := tries[0];
    i := 0;
    if |tries| > 1 {
      assert tries[1..][|tries| - 2] == tries[|tries| - 1];
      if t.end.pending.None? {
        NothingToRecover(releases, t.end, tries[1..]);
      } else {
        var k := RecoveryCompletes(releases, t.end, p, tries[1..]);
        i := k + 1;
        assert Before(d, tries, i) == Before(t.end, tries[1..], k) && tries[i] == tries[1..][k];
      }
    }
  }

  // From a settled version, through a switch that anything may befall and then any recoveries until one completes:
  // the new version exactly when the rename had happened by the time the switch ended, else the old one, with no
  // record and no backup left, nothing else touched, and previous.json as it was unless the rename had happened.
  lemma SwitchThenRecover(releases: set<string>, d: State, mid: State, v: string, wanted: string, suffix: nat, rollback: bool,
                          st: Status, forgot: bool, tries: seq<Attempt>)
    requires SettledAt(d, v) && (v == "" || v in releases) && FreshSuffix(d, suffix) && wanted in releases - {"", v}
    requires Switched(releases, d, mid, v, wanted, suffix, rollback, st, forgot) && Chain(releases, mid, tries)
    requires if tries == [] then mid.pending.None? else tries[|tries| - 1].st.Done?
    ensures var e := if tries == [] then mid else tries[|tries| - 1].end;
            var p := Transition(v, wanted, TempName(suffix), BackupName(suffix), rollback);
            && SettledAt(e, if LinksTo(mid, LinkName, wanted) then wanted else v)
            && p.backup !in e.at && SameElsewhere(d, e, p)
            && (!LinksTo(mid, LinkName, wanted) ==> e.previous == d.previous)
            && (mid.pending.None? && LinksTo(mid, LinkName, wanted) ==> Recorded(d, e, p, forgot))
            && (mid.pending.Some? && LinksTo(mid, LinkName, wanted) ==>
                  exists i: nat :: i < |tries| && Removes(mid, tries, i) && (e.previous == NewPrevious(p) <==> !LeftStale(mid, tries, i)))
  {
    if tries != [] {
      if mid.pending.None? {
        NothingToRecover(releases, mid, tries);
      } else {
        var i := RecoveryCompletes(releases, mid, mid.pending.value, tries);
      }
    }
  }

  // With no record left there is nothing to recover.
  lemma {:induction false} NothingToRecover(releases: set<string>, d: State, tries: seq<Attempt>)
    requires d.pending.None? && tries != [] && Chain(releases, d, tries)
    ensures tries[|tries| - 1].end == d
    decreases |tries|
  {
    if |tries| > 1 {
      NothingToRecover(releases, tries[0].end, tries[1..]);
      assert tries[1..][|tries| - 2] == tries[|tries| - 1];
    }
  }

  // One attempt that itself completes: previous.json is right unless its removal was asked for, failed, and there
  // was something to remove.
  lemma PreviousIsRight(releases: set<string>, d: State, e: State, p: Transition, forgot: bool)
    requires NewLinked(releases, d, p) && RecoverStep(releases, d, e, Done, forgot)
    ensures e.previous == NewPrevious(p) <==> !(forgot && d.previous.Some?)
  {
  }

  // The stale name may come of an attempt that died just after it removed the record; the next one has nothing to do
  // and reports success.
  lemma StaleChain()
    ensures var p := Transition("b", "a", TempName(1), BackupName(1), true);
            var d := State(map[LinkName := LinkTo("a"), BackupName(1) := LinkTo("b")], Some("b"), Some("a"), Some(p));
            var e := State(map[LinkName := LinkTo("a")], Some("a"), Some("a"), None);
            var tries := [Attempt(e, Dead, true), Attempt(e, Done, false)];
            && NewLinked({"a", "b"}, d, p) && Chain({"a", "b"}, d, tries)
            && Removes(d, tries, 0) && LeftStale(d, tries, 0) && e.previous != NewPrevious(p)
  {
    var p := Transition("b", "a", TempName(1), BackupName(1), true);
    var e := State(map[LinkName := LinkTo("a")], Some("a"), Some("a"), None);
    var tries := [Attempt(e, Dead, true), Attempt(e, Done, false)];
    assert tries[1..] == [Attempt(e, Done, false)];
    assert tries[1..][1..] == [];
    assert Chain({"a", "b"}, e, tries[1..]);
  }

  // The same as a run of the tool: the first recovery dies, the second reports success.
  method StaleRun() returns (t: Tool, st: Status)
    ensures st.Done? && SettledAt(t.Now(), "a") && t.previous == Some("a")
  {
    var p := Transition("b", "a", TempName(1), BackupName(1), true);
    t := new Tool({"a", "b"}, map[LinkName := LinkTo("a"), BackupName(1) := LinkTo("b")], Some("b"), Some("a"), Some(p), STALE_DEATH);
    var died, forgot := t.Recover();
    assert SettledAt(t.Now(), "a") && t.previous == Some("a");
    st, forgot := t.Recover();
  }

  // A rollback from "b" to "a" whose removal of previous.json fails: the recovery reports success and leaves "a"
  // as the previous version of "a".
  method StalePrevious() returns (t: Tool)
    ensures SettledAt(t.Now(), "a") && t.previous == Some("a")
  {
    var p := Transition("b", "a", TempName(1), BackupName(1), true);
    t := new Tool({"a", "b"}, map[LinkName := LinkTo("a"), BackupName(1) := LinkTo("b")], Some("b"), Some("a"), Some(p), STALE);
    var st, forgot := t.Recover();
  }
}
