/** The interrupter hook that the Sponge host gives the interpreter for each
    activation (createInterrupter and createInterrupterForInv): the node veto,
    the three reserved commands CALL, CANCELEVENT and COOLDOWN, and the
    reserved placeholders (there are none left: every lookup falls through). */
module Interrupter {
  import opened Wrappers
  import opened Values
  import opened SpongeEvents

  // ---------------------------------------------------------------------------
  // Command names, compared as String.equalsIgnoreCase does
  // ---------------------------------------------------------------------------

  function AsciiUpper(c: char): char
  {
    if 'a' <= c <= 'z' then (c as int - 32) as char else c
  }

  function ToUpper(s: string): (u: string)
    ensures |u| == |s|
    ensures forall i | 0 <= i < |s| :: u[i] == AsciiUpper(s[i])
  {
    seq(|s|, i requires 0 <= i < |s| => AsciiUpper(s[i]))
  }

  /** Two strings of equal length whose characters agree pairwise up to case. */
  predicate EqualsIgnoreCase(a: string, b: string): (eq: bool)
    ensures a == b ==> eq
    ensures eq ==> |a| == |b| && forall i | 0 <= i < |a| :: AsciiUpper(a[i]) == AsciiUpper(b[i])
  {
    |a| == |b| && forall i | 0 <= i < |a| :: a[i] == b[i] || AsciiUpper(a[i]) == AsciiUpper(b[i])
  }

  lemma {:induction false} EqualsIgnoreCaseIsUpperEquality(a: string, b: string)
    ensures EqualsIgnoreCase(a, b) <==> ToUpper(a) == ToUpper(b)
  {
    if ToUpper(a) == ToUpper(b) {
      assert |a| == |b|;
      forall i | 0 <= i < |a|
        ensures AsciiUpper(a[i]) == AsciiUpper(b[i])
      {
        assert ToUpper(a)[i] == ToUpper(b)[i];
      }
    }
  }

  datatype Reserved = Call | CancelEvent | Cooldown | NotReserved

  /** Which reserved command a name is, tested in the order onCommand tests them. */
  function ReservedOf(command: string): (r: Reserved)
    ensures r == Call <==> EqualsIgnoreCase("CALL", command)
    ensures r == CancelEvent ==> EqualsIgnoreCase("CANCELEVENT", command)
    ensures r == Cooldown ==> EqualsIgnoreCase("COOLDOWN", command)
    ensures r == NotReserved <==>
      !EqualsIgnoreCase("CALL", command) && !EqualsIgnoreCase("CANCELEVENT", command) && !EqualsIgnoreCase("COOLDOWN", command)
  {
    if EqualsIgnoreCase("CALL", command) then Call
    else if EqualsIgnoreCase("CANCELEVENT", command) then CancelEvent
    else if EqualsIgnoreCase("COOLDOWN", command) then Cooldown
    else NotReserved
  }

  /** The reserved names are matched regardless of case: a command is CALL
      exactly when its upper-case form is "CALL", and likewise for the others. */
  lemma ReservedOfIgnoresCase(command: string)
    ensures ReservedOf(command) == Call <==> ToUpper(command) == "CALL"
    ensures ReservedOf(command) == CancelEvent <==> ToUpper(command) == "CANCELEVENT"
    ensures ReservedOf(command) == Cooldown <==> ToUpper(command) == "COOLDOWN"
    ensures ReservedOf(command) == ReservedOf(ToUpper(command))
  {
    var up := ToUpper(command);
    assert ToUpper("CALL") == "CALL";
    assert ToUpper("CANCELEVENT") == "CANCELEVENT";
    assert ToUpper("COOLDOWN") == "COOLDOWN";
    assert ToUpper(up) == up;
    EqualsIgnoreCaseIsUpperEquality("CALL", command);
    EqualsIgnoreCaseIsUpperEquality("CANCELEVENT", command);
    EqualsIgnoreCaseIsUpperEquality("COOLDOWN", command);
    EqualsIgnoreCaseIsUpperEquality("CALL", up);
    EqualsIgnoreCaseIsUpperEquality("CANCELEVENT", up);
    EqualsIgnoreCaseIsUpperEquality("COOLDOWN", up);
  }

  // ---------------------------------------------------------------------------
  // The objects onCommand works on
  // ---------------------------------------------------------------------------

  /** A variable map handed to an activation (a java.util.Map<String, Object>). */
  class VarMap {
    var contents: map<string, Value>

    /** new HashMap<>(m): a new map with the same entries. */
    constructor (m: map<string, Value>)
      ensures contents == m
    {
      contents := m;
    }

    method Put(key: string, v: Value)
      modifies this
      ensures contents == old(contents)[key := v]
    {
      contents := contents[key := v];
    }
  }

  /** One call of Trigger.activate: the event and the variable map it was given. */
  datatype Activation = Activation(event: Event, vars: VarMap)

  /** A named trigger: its sync flag and the activations it has been given so far. */
  class Trigger {
    var sync: bool
    var activations: seq<Activation>

    constructor (sync: bool)
      ensures this.sync == sync && activations == []
    {
      this.sync := sync;
      activations := [];
    }

    function LastActivation(): Activation
      reads this
      requires activations != []
    {
      activations[|activations| - 1]
    }

    /** Trigger.activate, reduced to the record of what it was handed. */
    method Activate(e: Event, vars: VarMap)
      modifies this
      ensures sync == old(sync)
      ensures activations == old(activations) + [Activation(e, vars)]
    {
      activations := activations + [Activation(e, vars)];
    }
  }

  /** The running interpreter: its variable map and whether it runs synchronously. */
  class Interpreter {
    const vars: VarMap
    const sync: bool

    constructor (vars: VarMap, sync: bool)
      ensures this.vars == vars && this.sync == sync
    {
      this.vars := vars;
      this.sync := sync;
    }
  }

  /** The cooldown table: for each player UUID, the time (ms) its cooldown ends. */
  class CooldownTable {
    var table: map<Uuid, int>

    constructor ()
      ensures table == map[]
    {
      table := map[];
    }
  }

  /** The keys of inventoryMap: an inventory with its carrier (SpongeInventory). */
  datatype InventoryKey = InventoryKey(inventory: Inventory, carrier: nat)

  /** The open GUI inventories (the key set of inventoryMap). */
  class InventoryMap {
    var keys: set<InventoryKey>

    constructor (keys: set<InventoryKey>)
      ensures this.keys == keys
    {
      this.keys := keys;
    }
  }

  // ---------------------------------------------------------------------------
  // The hook
  // ---------------------------------------------------------------------------

  datatype CommandError =
    | NeedParameter               // CALL without arguments
    | NotAString(arg: Value)      // CALL whose first argument is not a String
    | NoNamedTrigger(name: string)
    | IllegalInAsync              // CANCELEVENT while the interpreter is not sync
    | NotCancellable              // CANCELEVENT on a context that cannot be cancelled
    | MissingArgument             // COOLDOWN without arguments (args[0] is out of bounds)
    | NotANumber(arg: Value)      // COOLDOWN whose first argument is not a Number

  /** The sync flag CALL gives its callee: args[1] when that is a Boolean, otherwise true. */
  function CallSync(args: seq<Value>): (sync: bool)
    ensures !sync <==> |args| > 1 && args[1] == Bool(false)
  {
    if |args| > 1 && args[1].Bool? then args[1].b else true
  }

  /** (long) (seconds * 1000): the cast truncates toward zero. */
  function Millis(seconds: real): (ms: int)
    ensures seconds >= 0.0 ==> 0 <= ms && ms as real <= seconds * 1000.0 < ms as real + 1.0
    ensures seconds < 0.0 ==> ms <= 0 && ms as real - 1.0 < seconds * 1000.0 <= ms as real
  {
    var x := seconds * 1000.0;
    if x >= 0.0 then x.Floor else -((-x).Floor)
  }

  /** The interrupter for one activation: e is the event that started it. The
      default interrupter has no inventoryMap; the one for inventory triggers has. */
  class ProcessInterrupter {
    const e: Event
    const interpreter: Interpreter
    const cooldowns: CooldownTable
    const inventoryMap: Option<InventoryMap>

    /** createInterrupter */
    constructor Default(e: Event, interpreter: Interpreter, cooldowns: CooldownTable)
      ensures this.e == e && this.interpreter == interpreter && this.cooldowns == cooldowns
      ensures inventoryMap == None
    {
      this.e := e;
      this.interpreter := interpreter;
      this.cooldowns := cooldowns;
      inventoryMap := None;
    }

    /** createInterrupterForInv */
    constructor ForInventory(e: Event, interpreter: Interpreter, cooldowns: CooldownTable, inventoryMap: InventoryMap)
      ensures this.e == e && this.interpreter == interpreter && this.cooldowns == cooldowns
      ensures this.inventoryMap == Some(inventoryMap)
    {
      this.e := e;
      this.interpreter := interpreter;
      this.cooldowns := cooldowns;
      this.inventoryMap := Some(inventoryMap);
    }

    /** onNodeProcess: true stops the activation. The default interrupter never
        stops. The inventory interrupter stops a run started by opening or
        closing a carried inventory with a carrier once that inventory is no
        longer an open GUI. */
    function OnNodeProcess(): (stop: bool)
      reads if inventoryMap.Some? then {inventoryMap.value} else {}
      ensures inventoryMap.None? ==> !stop
      ensures stop <==>
        && inventoryMap.Some?
        && e.kind.InteractInventory?
        && e.kind.phase != OtherPhase
        && e.kind.target.Carried?
        && e.kind.target.carrier.Some?
        && InventoryKey(e.kind.target, e.kind.target.carrier.value) !in inventoryMap.value.keys
    {
      match inventoryMap
      case None => false
      case Some(guis) =>
        match e.kind
        case OtherEvent => false
        case InteractInventory(phase, inv) =>
          if phase == OtherPhase then false
          else if !inv.Carried? then false
          else if inv.carrier.None? then false
          else InventoryKey(inv, inv.carrier.value) !in guis.keys
    }

    /** onPlaceholder: no placeholder is reserved; every name is left to the
        placeholder registry (Java null). */
    function OnPlaceholder(context: Event, placeholder: string, args: seq<Value>): (r: Option<Value>)
      ensures r == None
    {
      None
    }

    /** onCommand: Ok(true) when the command was a reserved one and was carried
        out, Ok(false) when it is not reserved, Err when it throws. The named
        trigger registry and the clock are passed in. */
    method OnCommand(context: Event, command: string, args: seq<Value>, named: map<string, Trigger>, now: int)
      returns (r: Result<bool, CommandError>)
      modifies context, cooldowns, named.Values
      // a name that is not reserved: not handled, nothing changes
      ensures ReservedOf(command) == NotReserved ==> r == Ok(false)
      ensures ReservedOf(command) != Call ==> unchanged(named.Values)
      ensures ReservedOf(command) != CancelEvent ==> unchanged(context)
      ensures ReservedOf(command) != Cooldown ==> unchanged(cooldowns)
      // CALL: the three ways it throws, each changing nothing
      ensures ReservedOf(command) == Call && |args| == 0 ==>
        r == Err(NeedParameter) && unchanged(named.Values)
      ensures ReservedOf(command) == Call && |args| > 0 && !args[0].Str? ==>
        r == Err(NotAString(args[0])) && unchanged(named.Values)
      ensures ReservedOf(command) == Call && |args| > 0 && args[0].Str? && args[0].s !in named ==>
        r == Err(NoNamedTrigger(args[0].s)) && unchanged(named.Values)
      // CALL of a registered trigger: sets its sync flag and activates it once with
      // the live variable map when sync, and with a fresh copy of it otherwise
      ensures ReservedOf(command) == Call && |args| > 0 && args[0].Str? && args[0].s in named ==>
        var t := named[args[0].s];
        && r == Ok(true)
        && t.sync == CallSync(args)
        && |t.activations| == |old(t.activations)| + 1
        && t.activations[..|old(t.activations)|] == old(t.activations)
        && t.LastActivation().event == e
        && (t.sync ==> t.LastActivation().vars == interpreter.vars)
        && (!t.sync ==> fresh(t.LastActivation().vars) && t.LastActivation().vars.contents == interpreter.vars.contents)
        && forall u | u in named.Values && u != t :: unchanged(u)
      // CANCELEVENT
      ensures ReservedOf(command) == CancelEvent ==>
        r == (if !interpreter.sync then Err(IllegalInAsync)
              else if !context.cancellable then Err(NotCancellable)
              else Ok(true))
      ensures ReservedOf(command) == CancelEvent && r.Err? ==> unchanged(context)
      ensures ReservedOf(command) == CancelEvent && r.Ok? ==> context.cancelled
      // COOLDOWN
      ensures ReservedOf(command) == Cooldown ==>
        r == (if |args| == 0 then Err(MissingArgument)
              else if !args[0].Num? then Err(NotANumber(args[0]))
              else Ok(true))
      ensures ReservedOf(command) == Cooldown && r.Err? ==> unchanged(cooldowns)
      ensures ReservedOf(command) == Cooldown && r.Ok? ==>
        cooldowns.table == match ExtractPlayer(e)
                           case Some(uuid) => old(cooldowns.table)[uuid := now + Millis(args[0].n)]
                           case None => old(cooldowns.table)
    {
      var reserved := ReservedOf(command);
      if reserved == Call {
        if |args| < 1 {
          return Err(NeedParameter);
        }
        if args[0].Str? {
          if args[0].s !in named {
            return Err(NoNamedTrigger(args[0].s));
          }
          var trigger := named[args[0].s];
          if |args| > 1 && args[1].Bool? {
            trigger.sync := args[1].b;
          } else {
            trigger.sync := true;
          }
          if trigger.sync {
            trigger.Activate(e, interpreter.vars);
          } else {
            // a snapshot, so that the callee never modifies the caller's map
            var snapshot := new VarMap(interpreter.vars.contents);
            trigger.Activate(e, snapshot);
          }
          return Ok(true);
        } else {
          return Err(NotAString(args[0]));
        }
      } else if reserved == CancelEvent {
        if !interpreter.sync {
          return Err(IllegalInAsync);
        }
        if context.cancellable {
          context.cancelled := true;
          return Ok(true);
        } else {
          return Err(NotCancellable);
        }
      } else if reserved == Cooldown {
        if |args| == 0 {
          return Err(MissingArgument);
        }
        if !args[0].Num? {
          return Err(NotANumber(args[0]));
        }
        var millis := Millis(args[0].n);
        var player := ExtractPlayer(e);
        if player.Some? {
          cooldowns.table := cooldowns.table[player.value := now + millis];
        }
        return Ok(true);
      }
      return Ok(false);
    }
  }

  // ---------------------------------------------------------------------------
  // What the caller's variable map sees after a CALL
  // ---------------------------------------------------------------------------

  /** CALL name false: the callee runs on a copy, so a write the callee makes
      to its map never reaches the caller's map. */
  method AsyncCalleeWriteStaysLocal(it: ProcessInterrupter, named: map<string, Trigger>, name: string,
                                    key: string, v: Value, now: int)
    requires name in named
    modifies it.e, it.cooldowns, named.Values
    ensures it.interpreter.vars.contents == old(it.interpreter.vars.contents)
  {
    var r := it.OnCommand(it.e, "CALL", [Str(name), Bool(false)], named, now);
    var callee := named[name];
    assert r == Ok(true) && !callee.sync;
    var handed := callee.LastActivation().vars;
    handed.Put(key, v);
  }

  /** CALL name (sync by default): the callee runs on the caller's own map, so
      a write the callee makes is visible to the caller afterwards. */
  method SyncCalleeWriteReachesCaller(it: ProcessInterrupter, named: map<string, Trigger>, name: string,
                                      key: string, v: Value, now: int)
    requires name in named
    modifies it.e, it.cooldowns, named.Values, it.interpreter.vars
    ensures it.interpreter.vars.contents == old(it.interpreter.vars.contents)[key := v]
  {
    var r := it.OnCommand(it.e, "call", [Str(name)], named, now);
    var callee := named[name];
    assert r == Ok(true) && callee.sync;
    var handed := callee.LastActivation().vars;
    handed.Put(key, v);
  }
}
