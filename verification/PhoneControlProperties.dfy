/** What arming and disarming promise (extensions/phone-control/index.ts). */
module PhoneControlProperties {
  import opened Basics
  import opened CommandLists
  import opened PhoneControls

  function Members(list: seq<string>): set<string> { set x | x in list }

  // ---------------------------------------------------------------- insertion-ordered sets

  lemma {:induction false} FreshMembers(commands: seq<string>, present: seq<string>)
    ensures forall x :: x in Fresh(commands, present) <==> x in commands && x !in present
  {
    if commands != [] {
      var first := commands[0];
      assert forall x :: x in commands <==> x == first || x in commands[1..];
      if first in present {
        FreshMembers(commands[1..], present);
      } else {
        FreshMembers(commands[1..], present + [first]);
      }
    }
  }

  lemma {:induction false} DeleteMembers(list: seq<string>, command: string)
    ensures forall x :: x in Delete(list, command) <==> x in list && x != command
  {
    if list != [] {
      assert forall x :: x in list <==> x == list[0] || x in list[1..];
      DeleteMembers(list[1..], command);
    }
  }

  lemma {:induction false} DeleteAllMembers(list: seq<string>, commands: seq<string>)
    ensures forall x :: x in DeleteAll(list, commands) <==> x in list && x !in commands
    decreases commands
  {
    if commands != [] {
      assert forall x :: x in commands <==> x == commands[0] || x in commands[1..];
      DeleteMembers(list, commands[0]);
      DeleteAllMembers(Delete(list, commands[0]), commands[1..]);
    }
  }

  lemma {:induction false} FoundMembers(commands: seq<string>, list: seq<string>)
    ensures forall x :: x in Found(commands, list) <==> x in commands && x in list
  {
    if commands != [] {
      assert forall x :: x in commands <==> x == commands[0] || x in commands[1..];
      DeleteMembers(list, commands[0]);
      FoundMembers(commands[1..], Delete(list, commands[0]));
    }
  }

  lemma NamesAppend(a: seq<string>, b: seq<string>)
    ensures Names(a + b) == Names(a) + Names(b)
  {
  }

  /** A part of a normalised list names exactly its members. */
  lemma NamesOfPart(part: seq<string>, values: seq<string>)
    requires forall x :: x in part ==> x in UniqSorted(values)
    ensures Names(part) == Members(part)
  {
    UniqSortedIsNormal(values);
    forall x | x in part ensures Trim(x) == x && x != "" {
      assert x in Names(values);
      var v :| v in values && Trim(v) != "" && Trim(v) == x;
      TrimTwice(v);
    }
  }

  /** The commands of a group, as a set. */
  function Commands(group: ArmGroup): set<string> { Members(GroupCommands(group)) }

  lemma NormalMembers(values: seq<string>)
    ensures Members(UniqSorted(values)) == Names(UniqSorted(values)) == Names(values)
  {
    UniqSortedIsNormal(values);
  }

  lemma GroupsAreParts(a: seq<string>, b: seq<string>, c: seq<string>)
    ensures Names(a + b + c) == Names(a) + Names(b) + Names(c)
  {
    NamesAppend(a + b, c);
    NamesAppend(a, b);
  }

  lemma GroupInAll(group: ArmGroup)
    ensures Commands(group) <= Commands(All)
  {
    NormalMembers(Listed(group));
    NormalMembers(Listed(All));
    GroupsAreParts(CAMERA, SCREEN, WRITES);
  }

  const CAMERA_ARMS := {"camera.snap", "camera.clip"}
  const SCREEN_ARMS := {"screen.record"}
  const WRITES_ARMS := {"calendar.add", "contacts.add", "reminders.add"}

  lemma TrimmedNames(list: seq<string>)
    requires forall x :: x in list ==> x != "" && !IsSpace(x[0]) && !IsSpace(x[|x| - 1])
    ensures Names(list) == Members(list)
  {}

  lemma CameraNames()
    ensures Names(CAMERA) == CAMERA_ARMS
  {
    TrimmedNames(CAMERA);
  }

  lemma ScreenNames()
    ensures Names(SCREEN) == SCREEN_ARMS
  {
    TrimmedNames(SCREEN);
  }

  lemma WritesNames()
    ensures Names(WRITES) == WRITES_ARMS
  {
    TrimmedNames(WRITES);
  }

  /** Each group name arms exactly its commands, `All` those of the three others. */
  lemma GroupArms(group: ArmGroup)
    ensures Commands(group) ==
            match group
            case Camera => CAMERA_ARMS
            case Screen => SCREEN_ARMS
            case Writes => WRITES_ARMS
            case All => CAMERA_ARMS + SCREEN_ARMS + WRITES_ARMS
  {
    NormalMembers(Listed(group));
    CameraNames();
    ScreenNames();
    WritesNames();
    GroupsAreParts(CAMERA, SCREEN, WRITES);
  }

  lemma Letters()
    ensures forall x :: x in CAMERA_ARMS ==> |x| == 11
    ensures forall x :: x in SCREEN_ARMS ==> |x| == 13 && x[0] == 's'
    ensures forall x :: x in WRITES_ARMS ==> |x| >= 12 && x[0] != 's'
  {}

  /** No command is armed by two of the three groups. */
  lemma GroupsAreDisjoint()
    ensures CAMERA_ARMS !! SCREEN_ARMS && CAMERA_ARMS !! WRITES_ARMS && SCREEN_ARMS !! WRITES_ARMS
  {
    Letters();
  }

  // ---------------------------------------------------------------- one arm, one disarm

  lemma ArmedAllow(list: seq<string>, listed: seq<string>)
    ensures
      var commands := UniqSorted(listed);
      var added := Fresh(commands, UniqSorted(list));
      && Names(UniqSorted(UniqSorted(list) + added)) == Names(list) + Members(commands)
      && Members(UniqSorted(added)) == Members(commands) - Names(list)
  {
    var commands, allow := UniqSorted(listed), UniqSorted(list);
    var added := Fresh(commands, allow);
    FreshMembers(commands, allow);
    NamesOfPart(added, listed);
    NormalMembers(list);
    NormalMembers(added);
    NormalMembers(allow + added);
    NamesAppend(allow, added);
    assert Members(added) == Members(commands) - Members(allow);
  }

  lemma ArmedDeny(list: seq<string>, listed: seq<string>)
    ensures
      var commands, deny := UniqSorted(listed), UniqSorted(list);
      var removed := UniqSorted(Found(commands, deny));
      && Names(UniqSorted(DeleteAll(deny, commands))) == Names(list) - Members(commands)
      && Names(removed) == Members(removed) == Members(commands) * Names(list)
  {
    var commands, deny := UniqSorted(listed), UniqSorted(list);
    var removed := Found(commands, deny);
    FoundMembers(commands, deny);
    DeleteAllMembers(deny, commands);
    NamesOfPart(removed, list);
    NamesOfPart(DeleteAll(deny, commands), list);
    NormalMembers(list);
    NormalMembers(removed);
    NormalMembers(DeleteAll(deny, commands));
    assert Members(removed) == Members(commands) * Members(deny);
    assert Members(DeleteAll(deny, commands)) == Members(deny) - Members(commands);
  }

  /**
   Arming allows every command of the group and denies none, leaves every other command as it
   was, and writes down exactly what it changed.
   */
  lemma ArmAllowsTheGroup(p: Phone, group: ArmGroup, now: int, durationMs: int)
    ensures
      var q := Arm(p, group, now, durationMs);
      && Names(q.allow) == Names(p.allow) + Commands(group)
      && Names(q.deny) == Names(p.deny) - Commands(group)
    ensures
      var state := Arm(p, group, now, durationMs).state.value;
      && state.V2? && state.expiresAtMs == Some(now + durationMs) && state.group == group
      && Members(state.armedCommands) == Commands(group)
      && Members(state.addedToAllow) == Commands(group) - Names(p.allow)
      && Names(state.removedFromDeny) == Members(state.removedFromDeny) == Commands(group) * Names(p.deny)
  {
    ArmedAllow(p.allow, Listed(group));
    ArmedDeny(p.deny, Listed(group));
    NormalMembers(Listed(group));
    NormalMembers(GroupCommands(group));
  }

  function ToDelete(state: ArmState): seq<string> { if state.V1? then [] else state.addedToAllow }

  /** Disarming takes back the additions and puts back the removals, whatever the lists hold by then. */
  lemma DisarmTakesBack(p: Phone)
    requires p.state.Some?
    ensures
      var q := Disarm(p).0;
      && q.state.None?
      && Names(q.allow) == Names(p.allow) - Members(ToDelete(p.state.value))
      && Names(q.deny) == Names(p.deny) + Names(p.state.value.removedFromDeny)
    ensures Disarm(p).1.changed ==> Disarm(p).0.allow == UniqSorted(Disarm(p).0.allow) && Disarm(p).0.deny == UniqSorted(Disarm(p).0.deny)
    ensures !Disarm(p).1.changed ==> Disarm(p).0 == p.(state := None)
  {
    var state := p.state.value;
    var allow, deny := UniqSorted(p.allow), UniqSorted(p.deny);
    var toDelete := ToDelete(state);
    var restored := Fresh(state.removedFromDeny, deny);
    UniqSortedIsNormal(p.allow);
    UniqSortedIsNormal(p.deny);
    DisarmedAllow(p.allow, toDelete);
    DisarmedDeny(p.deny, state.removedFromDeny);
    SameNamesSameList(UniqSorted(DeleteAll(allow, toDelete)), DeleteAll(allow, toDelete));
    SameNamesSameList(UniqSorted(deny + restored), deny + restored);
    UniqSortedIsNormal(DeleteAll(allow, toDelete));
    UniqSortedIsNormal(deny + restored);
  }

  /** The report names exactly the additions that were still there and the removals that were not. */
  lemma DisarmReports(p: Phone)
    requires p.state.Some?
    ensures var (toDelete, toRestore, report) := (ToDelete(p.state.value), p.state.value.removedFromDeny, Disarm(p).1);
            && Members(report.removed) == Members(toDelete) * Names(p.allow)
            && (forall x :: x in report.restored <==> exists v :: v in toRestore && v !in Names(p.deny) && Trim(v) == x && x != "")
            && (report.changed <==>
                  Members(toDelete) * Names(p.allow) != {} || exists v :: v in toRestore && v !in Names(p.deny))
  {
    var toDelete, toRestore := ToDelete(p.state.value), p.state.value.removedFromDeny;
    RemovedNames(p.allow, toDelete);
    RestoredNames(p.deny, toRestore);
  }

  lemma RemovedNames(list: seq<string>, toDelete: seq<string>)
    ensures Members(UniqSorted(Found(toDelete, UniqSorted(list)))) == Members(toDelete) * Names(list)
    ensures Found(toDelete, UniqSorted(list)) == [] <==> Members(toDelete) * Names(list) == {}
  {
    var found := Found(toDelete, UniqSorted(list));
    NormalMembers(list);
    FoundMembers(toDelete, UniqSorted(list));
    NamesOfPart(found, list);
    NormalMembers(found);
    assert Members(found) == Members(toDelete) * Members(UniqSorted(list));
    if found != [] { assert found[0] in Members(found); }
  }

  lemma RestoredNames(list: seq<string>, toRestore: seq<string>)
    ensures forall x :: x in UniqSorted(Fresh(toRestore, UniqSorted(list))) <==>
              exists v :: v in toRestore && v !in Names(list) && Trim(v) == x && x != ""
    ensures Fresh(toRestore, UniqSorted(list)) == [] <==> forall v :: v in toRestore ==> v in Names(list)
  {
    var added := Fresh(toRestore, UniqSorted(list));
    NormalMembers(list);
    FreshMembers(toRestore, UniqSorted(list));
    NormalMembers(added);
    forall v ensures v in UniqSorted(list) <==> v in Names(list) {
      assert v in UniqSorted(list) <==> v in Members(UniqSorted(list));
    }
    forall x ensures x in UniqSorted(added) <==> exists v :: v in added && Trim(v) == x && x != "" {
      assert x in UniqSorted(added) <==> x in Members(UniqSorted(added));
    }
    if added != [] { assert added[0] in added; }
  }

  /** The timer disarms an expired state, of either version, and otherwise changes nothing. */
  lemma TickIff(p: Phone, now: int)
    requires p.state.Some?
    ensures var expires := p.state.value.expiresAtMs;
            if expires.Some? && now >= expires.value then Tick(p, now) == Disarm(p).0 && Tick(p, now).state.None? else Tick(p, now) == p
  {
    DisarmTakesBack(p);
  }

  lemma DisarmedAllow(list: seq<string>, toDelete: seq<string>)
    ensures Names(DeleteAll(UniqSorted(list), toDelete)) == Names(list) - Members(toDelete)
    ensures Found(toDelete, UniqSorted(list)) == [] ==> Names(list) - Members(toDelete) == Names(list)
  {
    var allow := UniqSorted(list);
    NormalMembers(list);
    DeleteAllMembers(allow, toDelete);
    FoundMembers(toDelete, allow);
    NamesOfPart(DeleteAll(allow, toDelete), list);
    assert Members(DeleteAll(allow, toDelete)) == Members(allow) - Members(toDelete);
    assert Members(Found(toDelete, allow)) == Members(allow) * Members(toDelete);
  }

  lemma DisarmedDeny(list: seq<string>, toRestore: seq<string>)
    ensures Names(UniqSorted(list) + Fresh(toRestore, UniqSorted(list))) == Names(list) + Names(toRestore)
    ensures Fresh(toRestore, UniqSorted(list)) == [] ==> Names(list) + Names(toRestore) == Names(list)
  {
    var deny := UniqSorted(list);
    var added := Fresh(toRestore, deny);
    UniqSortedIsNormal(list);
    FreshMembers(toRestore, deny);
    NamesAppend(deny, added);
    forall x | x in Names(toRestore) ensures x in Names(list) + Names(added) {
      var v :| v in toRestore && Trim(v) != "" && Trim(v) == x;
      if v in deny {
        assert x in Names(deny);
      } else {
        assert v in added;
      }
    }
    assert Names(added) <= Names(toRestore);
  }

  /** Disarming right after arming gives back the normalised lists from before. */
  lemma DisarmRestores(p: Phone, group: ArmGroup, now: int, durationMs: int)
    ensures Disarm(Arm(p, group, now, durationMs)).0 == Phone(UniqSorted(p.allow), UniqSorted(p.deny), None)
  {
    var armed := Arm(p, group, now, durationMs);
    var q := Disarm(armed).0;
    ArmAllowsTheGroup(p, group, now, durationMs);
    DisarmTakesBack(armed);
    assert Names(q.allow) == Names(p.allow);
    assert Names(q.deny) == Names(p.deny);
    SameNamesSameList(q.allow, p.allow);
    SameNamesSameList(q.deny, p.deny);
    ArmedListsAreNormal(p, group, now, durationMs);
  }

  lemma ArmedListsAreNormal(p: Phone, group: ArmGroup, now: int, durationMs: int)
    ensures
      var q := Arm(p, group, now, durationMs);
      UniqSorted(q.allow) == q.allow && UniqSorted(q.deny) == q.deny
  {
    var allow, deny := UniqSorted(p.allow), UniqSorted(p.deny);
    var commands := GroupCommands(group);
    NormalTwice(allow + Fresh(commands, allow));
    NormalTwice(DeleteAll(deny, commands));
  }

  lemma NormalTwice(values: seq<string>)
    ensures UniqSorted(UniqSorted(values)) == UniqSorted(values)
  {
    UniqSortedIsNormal(values);
    SameNamesSameList(UniqSorted(values), values);
  }

  /**
   With other edits of the config in between: a command of the group that nobody else touched
   goes back to where it was before arming, and any other command stays where the edits put it.
   */
  lemma DisarmUnderEdits(p: Phone, group: ArmGroup, now: int, durationMs: int, edited: Phone)
    requires edited.state == Arm(p, group, now, durationMs).state
    ensures forall c :: c in Commands(group) && (c in Names(edited.allow)) ==>
      (c in Names(Disarm(edited).0.allow) <==> c in Names(p.allow))
    ensures forall c :: c in Commands(group) && (c !in Names(edited.deny)) ==>
      (c in Names(Disarm(edited).0.deny) <==> c in Names(p.deny))
    ensures forall c :: c !in Commands(group) ==>
      && (c in Names(Disarm(edited).0.allow) <==> c in Names(edited.allow))
      && (c in Names(Disarm(edited).0.deny) <==> c in Names(edited.deny))
  {
    ArmAllowsTheGroup(p, group, now, durationMs);
    DisarmTakesBack(edited);
  }

  // ---------------------------------------------------------------- arming twice

  /**
   Arming while armed forgets what the first arm changed. Disarming then ends where the first
   arm left off, which is where everything started only if the first arm had nothing to change.
   */
  lemma RearmForgetsTheFirst(p: Phone, first: ArmGroup, second: ArmGroup, t0: int, d0: int, t1: int, d1: int)
    ensures
      var q := Disarm(Arm(Arm(p, first, t0, d0), second, t1, d1)).0;
      && q == Arm(p, first, t0, d0).(state := None)
      && (q.allow == UniqSorted(p.allow) && q.deny == UniqSorted(p.deny) <==>
          Commands(first) <= Names(p.allow) && Commands(first) !! Names(p.deny))
  {
    var armed := Arm(p, first, t0, d0);
    DisarmRestores(armed, second, t1, d1);
    ArmedListsAreNormal(p, first, t0, d0);
    ArmAllowsTheGroup(p, first, t0, d0);
    SameNamesSameList(armed.allow, p.allow);
    SameNamesSameList(armed.deny, p.deny);
  }

  // ---------------------------------------------------------------- whole runs

  datatype Op = ArmOp(group: ArmGroup, now: int, durationMs: int) | DisarmOp | TickOp(now: int) | EditOp(allow: seq<string>, deny: seq<string>)

  function Apply(p: Phone, op: Op): Phone {
    match op
    case ArmOp(group, now, durationMs) => Arm(p, group, now, durationMs)
    case DisarmOp => Disarm(p).0
    case TickOp(now) => Tick(p, now)
    case EditOp(allow, deny) => p.(allow := allow, deny := deny)
  }

  function Run(p: Phone, ops: seq<Op>): Phone {
    if ops == [] then p else Apply(Run(p, ops[..|ops| - 1]), ops[|ops| - 1])
  }

  /** While the commands are armed they are allowed and not denied, and only they will be touched. */
  predicate ArmedInForce(p: Phone) {
    p.state.Some? && p.state.value.V2? ==>
      var state := p.state.value;
      && Members(state.armedCommands) <= Commands(All)
      && Members(state.armedCommands) <= Names(p.allow)
      && Members(state.armedCommands) !! Names(p.deny)
      && Members(state.addedToAllow) <= Members(state.armedCommands)
      && Names(state.removedFromDeny) <= Members(state.armedCommands)
  }

  /** The edits of others leave the armed commands alone. */
  predicate Respects(p: Phone, op: Op) {
    op.EditOp? && p.state.Some? && p.state.value.V2? ==>
      var armed := Members(p.state.value.armedCommands);
      armed <= Names(op.allow) && armed !! Names(op.deny)
  }

  ghost predicate AllRespect(p: Phone, ops: seq<Op>) {
    forall k :: 0 <= k < |ops| ==> Respects(Run(p, ops[..k]), ops[k])
  }

  lemma ApplyKeepsArmed(p: Phone, op: Op)
    requires ArmedInForce(p) && Respects(p, op)
    ensures ArmedInForce(Apply(p, op))
  {
    if op.ArmOp? {
      ArmAllowsTheGroup(p, op.group, op.now, op.durationMs);
      GroupInAll(op.group);
    }
  }

  /** At every moment of every run that starts disarmed, what is armed is in force. */
  lemma {:induction false} ArmedStaysInForce(p: Phone, ops: seq<Op>)
    requires p.state.None? && AllRespect(p, ops)
    ensures ArmedInForce(Run(p, ops))
  {
    if ops != [] {
      var before := ops[..|ops| - 1];
      forall k | 0 <= k < |before| ensures Respects(Run(p, before[..k]), before[k]) {
        assert before[..k] == ops[..k] && before[k] == ops[k];
      }
      ArmedStaysInForce(p, before);
      ApplyKeepsArmed(Run(p, before), ops[|ops| - 1]);
    }
  }

  /** Something after the arm at `last` has disarmed: the command, or a tick at or past the expiry. */
  predicate Fired(ops: seq<Op>, last: nat)
    requires last < |ops| && ops[last].ArmOp?
  {
    exists k :: last < k < |ops| && Fires(ops[k], ops[last].now + ops[last].durationMs)
  }

  predicate Fires(op: Op, expiresAtMs: int) {
    op.DisarmOp? || (op.TickOp? && op.now >= expiresAtMs)
  }

  /**
   The whole cycle: after the most recent arm of a run, and no edits since, the lists are as armed
   until the first disarm or tick past the expiry, and from then on the normalised lists from just
   before the arm.
   */
  lemma {:induction false} ArmDisarmCycle(p: Phone, ops: seq<Op>, last: nat)
    requires last < |ops| && ops[last].ArmOp?
    requires forall k :: last < k < |ops| ==> ops[k].DisarmOp? || ops[k].TickOp?
    ensures
      var before := Run(p, ops[..last]);
      Run(p, ops) ==
      if Fired(ops, last) then Phone(UniqSorted(before.allow), UniqSorted(before.deny), None)
      else Apply(before, ops[last])
  {
    var before, arm, op := Run(p, ops[..last]), ops[last], ops[|ops| - 1];
    if last < |ops| - 1 {
      var shorter := ops[..|ops| - 1];
      assert shorter[..last] == ops[..last];
      ArmDisarmCycle(p, shorter, last);
      FiredOneMore(ops, last);
      DisarmRestores(before, arm.group, arm.now, arm.durationMs);
      CycleStep(before, arm, op);
    }
  }

  lemma FiredOneMore(ops: seq<Op>, last: nat)
    requires last < |ops| - 1 && ops[last].ArmOp?
    ensures Fired(ops, last) <==> Fired(ops[..|ops| - 1], last) || Fires(ops[|ops| - 1], ops[last].now + ops[last].durationMs)
  {
    var shorter, expiresAtMs := ops[..|ops| - 1], ops[last].now + ops[last].durationMs;
    if Fired(shorter, last) {
      var k :| last < k < |shorter| && Fires(shorter[k], expiresAtMs);
      assert Fires(ops[k], expiresAtMs);
    }
    if Fired(ops, last) && !Fires(ops[|ops| - 1], expiresAtMs) {
      var k :| last < k < |ops| && Fires(ops[k], expiresAtMs);
      assert Fires(shorter[k], expiresAtMs);
    }
  }

  lemma CycleStep(before: Phone, arm: Op, op: Op)
    requires arm.ArmOp? && (op.DisarmOp? || op.TickOp?)
    ensures Apply(Apply(before, arm), op) ==
      if Fires(op, arm.now + arm.durationMs) then Phone(UniqSorted(before.allow), UniqSorted(before.deny), None) else Apply(before, arm)
    ensures forall disarmed: Phone :: disarmed.state.None? ==> Apply(disarmed, op) == disarmed
  {
    DisarmRestores(before, arm.group, arm.now, arm.durationMs);
  }

  /** In any such run disarming ends with the lists from just before the most recent arm, however
      many disarms and ticks came before. */
  lemma DisarmRestoresInRun(p: Phone, ops: seq<Op>, last: nat)
    requires last < |ops| && ops[last].ArmOp?
    requires forall k :: last < k < |ops| ==> ops[k].DisarmOp? || ops[k].TickOp?
    ensures
      var before := Run(p, ops[..last]);
      Disarm(Run(p, ops)).0 == Phone(UniqSorted(before.allow), UniqSorted(before.deny), None)
  {
    var arm := ops[last];
    ArmDisarmCycle(p, ops, last);
    DisarmRestores(Run(p, ops[..last]), arm.group, arm.now, arm.durationMs);
  }

  // ---------------------------------------------------------------- commands of no group

  /** The lists that others wrote last. */
  function Edited(p: Phone, ops: seq<Op>): Phone {
    if ops == [] then p
    else
      var op := ops[|ops| - 1];
      if op.EditOp? then p.(allow := op.allow, deny := op.deny) else Edited(p, ops[..|ops| - 1])
  }

  /** What is written down for disarming concerns commands of the groups only. */
  predicate RecordsGroups(p: Phone) {
    p.state.Some? ==>
      && Members(ToDelete(p.state.value)) <= Commands(All)
      && Names(p.state.value.removedFromDeny) <= Commands(All)
  }

  lemma ApplyTouchesGroups(p: Phone, op: Op)
    requires RecordsGroups(p)
    ensures RecordsGroups(Apply(p, op))
    ensures !op.EditOp? ==>
      && Names(Apply(p, op).allow) - Commands(All) == Names(p.allow) - Commands(All)
      && Names(Apply(p, op).deny) - Commands(All) == Names(p.deny) - Commands(All)
  {
    if op.ArmOp? {
      ArmAllowsTheGroup(p, op.group, op.now, op.durationMs);
      GroupInAll(op.group);
    } else if !op.EditOp? && p.state.Some? {
      DisarmTakesBack(p);
    }
  }

  /**
   Whatever is armed, disarmed and edited, a command of no group is in a list exactly when whoever
   wrote the lists last put it there.
   */
  lemma {:induction false} OtherCommandsUntouched(p: Phone, ops: seq<Op>)
    requires RecordsGroups(p)
    ensures RecordsGroups(Run(p, ops))
    ensures Names(Run(p, ops).allow) - Commands(All) == Names(Edited(p, ops).allow) - Commands(All)
    ensures Names(Run(p, ops).deny) - Commands(All) == Names(Edited(p, ops).deny) - Commands(All)
  {
    if ops != [] {
      OtherCommandsUntouched(p, ops[..|ops| - 1]);
      ApplyTouchesGroups(Run(p, ops[..|ops| - 1]), ops[|ops| - 1]);
    }
  }
}
