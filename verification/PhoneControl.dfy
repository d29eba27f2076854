/**
 Arming and disarming phone commands (extensions/phone-control/index.ts). Arming edits two
 command lists of the gateway config and writes down what it changed; disarming undoes that.
 The config and state files are fields.
 */
module PhoneControls {
  import opened Basics
  import opened CommandLists

  datatype ArmGroup = Camera | Screen | Writes | All

  datatype ArmState =
    | V1(expiresAtMs: Option<int>, removedFromDeny: seq<string>)
    | V2(expiresAtMs: Option<int>, group: ArmGroup, armedCommands: seq<string>, addedToAllow: seq<string>,
         removedFromDeny: seq<string>)

  /** The node lists of the config, a missing list being empty, and the state file. */
  datatype Phone = Phone(allow: seq<string>, deny: seq<string>, state: Option<ArmState>)

  datatype Report = Report(changed: bool, restored: seq<string>, removed: seq<string>)

  const CAMERA := ["camera.snap", "camera.clip"]
  const SCREEN := ["screen.record"]
  const WRITES := ["calendar.add", "contacts.add", "reminders.add"]

  function Listed(group: ArmGroup): seq<string> {
    match group
    case Camera => CAMERA
    case Screen => SCREEN
    case Writes => WRITES
    case All => CAMERA + SCREEN + WRITES
  }

  function GroupCommands(group: ArmGroup): seq<string> { UniqSorted(Listed(group)) }

  // ---------------------------------------------------------------- insertion-ordered sets

  function Fresh(commands: seq<string>, present: seq<string>): seq<string> {
    if commands == [] then []
    else if commands[0] in present then Fresh(commands[1..], present)
    else [commands[0]] + Fresh(commands[1..], present + [commands[0]])
  }

  function Delete(list: seq<string>, command: string): seq<string> {
    if list == [] then []
    else if list[0] == command then Delete(list[1..], command)
    else [list[0]] + Delete(list[1..], command)
  }

  function DeleteAll(list: seq<string>, commands: seq<string>): seq<string>
    decreases commands
  {
    if commands == [] then list else DeleteAll(Delete(list, commands[0]), commands[1..])
  }

  /** The commands that deleting them one by one finds present. */
  function Found(commands: seq<string>, list: seq<string>): seq<string> {
    if commands == [] then []
    else (if commands[0] in list then [commands[0]] else []) + Found(commands[1..], Delete(list, commands[0]))
  }

  // ---------------------------------------------------------------- arming and disarming

  function Arm(p: Phone, group: ArmGroup, now: int, durationMs: int): Phone {
    var commands := GroupCommands(group);
    var allow, deny := UniqSorted(p.allow), UniqSorted(p.deny);
    var added, removed := Fresh(commands, allow), Found(commands, deny);
    Phone(UniqSorted(allow + added), UniqSorted(DeleteAll(deny, commands)),
          Some(V2(Some(now + durationMs), group, UniqSorted(commands), UniqSorted(added), UniqSorted(removed))))
  }

  function Disarm(p: Phone): (Phone, Report) {
    if p.state.None? then (p, Report(false, [], []))
    else
      var state := p.state.value;
      var allow, deny := UniqSorted(p.allow), UniqSorted(p.deny);
      var toDelete := if state.V1? then [] else state.addedToAllow;
      var removed, restored := Found(toDelete, allow), Fresh(state.removedFromDeny, deny);
      var changed := removed != [] || restored != [];
      var next :=
        if changed then Phone(UniqSorted(DeleteAll(allow, toDelete)), UniqSorted(deny + restored), None)
        else p.(state := None);
      (next, Report(changed, UniqSorted(restored), UniqSorted(removed)))
  }

  /** The expiry timer. */
  function Tick(p: Phone, now: int): Phone {
    if p.state.None? || p.state.value.expiresAtMs.None? || now < p.state.value.expiresAtMs.value then p
    else Disarm(p).0
  }

  // ---------------------------------------------------------------- the source's loops

  class PhoneControl {
    var allowCommands: seq<string>
    var denyCommands: seq<string>
    var state: Option<ArmState>

    function Value(): Phone
      reads this
    {
      Phone(allowCommands, denyCommands, state)
    }

    constructor (allow: seq<string>, deny: seq<string>, state: Option<ArmState>)
      ensures Value() == Phone(allow, deny, state)
    {
      allowCommands, denyCommands, this.state := allow, deny, state;
    }

    method ArmGroupFor(group: ArmGroup, now: int, durationMs: int)
      modifies this
      ensures Value() == Arm(old(Value()), group, now, durationMs)
    {
      var commands := GroupCommands(group);
      var allowSet, denySet := UniqSorted(allowCommands), UniqSorted(denyCommands);
      var addedToAllow, removedFromDeny;
      allowSet, denySet, addedToAllow, removedFromDeny := ArmEach(commands, allowSet, denySet);
      allowCommands, denyCommands := UniqSorted(allowSet), UniqSorted(denySet);
      state := Some(V2(Some(now + durationMs), group, UniqSorted(commands), UniqSorted(addedToAllow), UniqSorted(removedFromDeny)));
    }

    method ArmEach(commands: seq<string>, allow: seq<string>, deny: seq<string>)
      returns (allowSet: seq<string>, denySet: seq<string>, addedToAllow: seq<string>, removedFromDeny: seq<string>)
      ensures addedToAllow == Fresh(commands, allow) && allowSet == allow + addedToAllow
      ensures removedFromDeny == Found(commands, deny) && denySet == DeleteAll(deny, commands)
    {
      allowSet, denySet, addedToAllow, removedFromDeny := allow, deny, [], [];
      for i := 0 to |commands|
        invariant allowSet == allow + addedToAllow
        invariant addedToAllow + Fresh(commands[i..], allowSet) == Fresh(commands, allow)
        invariant removedFromDeny + Found(commands[i..], denySet) == Found(commands, deny)
        invariant DeleteAll(denySet, commands[i..]) == DeleteAll(deny, commands)
      {
        var cmd := commands[i];
        assert commands[i..][1..] == commands[i + 1..];
        if cmd !in allowSet {
          allowSet := allowSet + [cmd];
          addedToAllow := addedToAllow + [cmd];
        }
        if cmd in denySet {
          removedFromDeny := removedFromDeny + [cmd];
        }
        denySet := Delete(denySet, cmd);
      }
    }

    method DisarmNow() returns (report: Report)
      modifies this
      ensures (Value(), report) == Disarm(old(Value()))
    {
      if state.None? { return Report(false, [], []); }
      var allow, deny := UniqSorted(allowCommands), UniqSorted(denyCommands);
      var removed, restored := [], [];
      if state.value.V2? {
        allow, removed := DeleteEach(allow, state.value.addedToAllow);
      }
      deny, restored := AddEach(deny, state.value.removedFromDeny);
      if |removed| > 0 || |restored| > 0 {
        allowCommands, denyCommands := UniqSorted(allow), UniqSorted(deny);
      }
      state := None;
      report := Report(|removed| > 0 || |restored| > 0, UniqSorted(restored), UniqSorted(removed));
    }

    method DeleteEach(list: seq<string>, commands: seq<string>) returns (left: seq<string>, removed: seq<string>)
      ensures left == DeleteAll(list, commands) && removed == Found(commands, list)
    {
      left, removed := list, [];
      for i := 0 to |commands|
        invariant removed + Found(commands[i..], left) == Found(commands, list)
        invariant DeleteAll(left, commands[i..]) == DeleteAll(list, commands)
      {
        var cmd := commands[i];
        assert commands[i..][1..] == commands[i + 1..];
        if cmd in left {
          removed := removed + [cmd];
        }
        left := Delete(left, cmd);
      }
    }

    method AddEach(list: seq<string>, commands: seq<string>) returns (all: seq<string>, added: seq<string>)
      ensures all == list + added && added == Fresh(commands, list)
    {
      all, added := list, [];
      for i := 0 to |commands|
        invariant all == list + added
        invariant added + Fresh(commands[i..], all) == Fresh(commands, list)
      {
        var cmd := commands[i];
        assert commands[i..][1..] == commands[i + 1..];
        if cmd !in all {
          all := all + [cmd];
          added := added + [cmd];
        }
      }
    }

    method OnTick(now: int)
      modifies this
      ensures Value() == Tick(old(Value()), now)
    {
      if state.None? || state.value.expiresAtMs.None? { return; }
      if now < state.value.expiresAtMs.value { return; }
      var _ := DisarmNow();
    }
  }
}
