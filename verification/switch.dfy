/**
 * The LED and buzzer switch entities of the PetTracer integration
 * (custom_components/pettracer/switch.py). The command's success is an
 * input: the API calls it makes (`set_led_mode`, `set_buzzer_mode`) are not
 * part of this model.
 */
module Switch {
  import opened Wrappers

  /** A value read from the collar's data record, for Python truthiness. */
  datatype Value = Null | Bool(b: bool) | Int(i: int) | Text(s: string)

  /** Python truthiness; a missing key reads as `None`. */
  predicate Truthy(v: Value) {
    match v
    case Null => false
    case Bool(b) => b
    case Int(i) => i != 0
    case Text(s) => s != ""
  }

  /** The two flags of the collar record the switches start from; a missing key is Null. */
  datatype CollarFlags = CollarFlags(ledStatus: Value, buzzer: Value)

  datatype SwitchKind = LedSwitch | BuzzerSwitch

  datatype Action = TurnOn | TurnOff

  /** A switch entity: which switch, for which device, and its stored on flag. */
  datatype SwitchEntity = SwitchEntity(kind: SwitchKind, deviceId: string, isOn: bool)

  /** A freshly created switch: on exactly when its flag in the collar record is truthy. */
  function NewSwitch(kind: SwitchKind, deviceId: string, flags: CollarFlags): (s: SwitchEntity)
    ensures s.kind == kind && s.deviceId == deviceId
    ensures kind == LedSwitch ==> (s.isOn <==> Truthy(flags.ledStatus))
    ensures kind == BuzzerSwitch ==> (s.isOn <==> Truthy(flags.buzzer))
  {
    var flag := if kind == LedSwitch then flags.ledStatus else flags.buzzer;
    SwitchEntity(kind, deviceId, Truthy(flag))
  }

  /** `is_on`: the stored flag. */
  function IsOn(s: SwitchEntity): bool {
    s.isOn
  }

  /** The mode value sent for an action: the LED sends 1 to turn on and 0 to turn off; the buzzer sends 1 for both. */
  function CommandMode(kind: SwitchKind, action: Action): (mode: int)
    ensures mode == 0 || mode == 1
    ensures kind == LedSwitch ==> (mode == 1 <==> action == TurnOn)
    ensures kind == BuzzerSwitch ==> mode == 1
  {
    match (kind, action)
    case (LedSwitch, TurnOn) => 1
    case (LedSwitch, TurnOff) => 0
    case (BuzzerSwitch, _) => 1
  }

  /** The API request an action sends. */
  datatype Command = SetLedMode(mode: int, deviceId: string) | SetBuzzerMode(mode: int, deviceId: string)

  function CommandFor(s: SwitchEntity, action: Action): (c: Command)
    ensures c.deviceId == s.deviceId
    ensures c.SetLedMode? <==> s.kind == LedSwitch
    ensures c.mode == CommandMode(s.kind, action)
  {
    match s.kind
    case LedSwitch => SetLedMode(CommandMode(s.kind, action), s.deviceId)
    case BuzzerSwitch => SetBuzzerMode(CommandMode(s.kind, action), s.deviceId)
  }

  /** The buzzer's mode does not tell turning on from turning off. */
  lemma BuzzerCommandIgnoresAction(s: SwitchEntity)
    requires s.kind == BuzzerSwitch
    ensures CommandFor(s, TurnOn) == CommandFor(s, TurnOff)
  {
  }

  /** The LED's mode tells the two actions apart. */
  lemma LedCommandDistinguishesAction(s: SwitchEntity)
    requires s.kind == LedSwitch
    ensures CommandFor(s, TurnOn) != CommandFor(s, TurnOff)
  {
  }

  /** `async_turn_on` / `async_turn_off`: the flag follows the action only when the command reports success. */
  function Perform(s: SwitchEntity, action: Action, success: bool): (s': SwitchEntity)
    ensures s'.kind == s.kind && s'.deviceId == s.deviceId
    ensures success ==> (IsOn(s') <==> action == TurnOn)
    ensures !success ==> s' == s
  {
    if success then s.(isOn := action == TurnOn) else s
  }

  /** One user action and whether its command succeeded. */
  datatype Step = Step(action: Action, success: bool)

  /** The switch after a sequence of actions, applied in order. */
  function Run(s: SwitchEntity, steps: seq<Step>): (s': SwitchEntity)
    ensures s'.kind == s.kind && s'.deviceId == s.deviceId
  {
    if |steps| == 0 then s
    else
      var last := steps[|steps| - 1];
      Perform(Run(s, steps[..|steps| - 1]), last.action, last.success)
  }

  /** The action of the last successful step, if any. */
  function LastSuccess(steps: seq<Step>): (a: Option<Action>)
    ensures a.Some? ==> exists i :: && 0 <= i < |steps| && steps[i].success && steps[i].action == a.value
                                     && forall j :: i < j < |steps| ==> !steps[j].success
    ensures a.None? ==> forall i :: 0 <= i < |steps| ==> !steps[i].success
  {
    if |steps| == 0 then None
    else if steps[|steps| - 1].success then Some(steps[|steps| - 1].action)
    else
      var a := LastSuccess(steps[..|steps| - 1]);
      assert forall i :: 0 <= i < |steps| - 1 ==> steps[..|steps| - 1][i] == steps[i];
      assert a.Some? ==> exists i :: && 0 <= i < |steps| - 1 && steps[i].success && steps[i].action == a.value
                                     && forall j :: i < j < |steps| ==> !steps[j].success;
      a
  }

  /**
   * Nothing but a successful command moves the flag: after any run, the
   * switch is on exactly when the last successful action was TurnOn, and
   * keeps its initial flag when no command succeeded.
   */
  lemma {:induction false} RunFollowsLastSuccess(s: SwitchEntity, steps: seq<Step>)
    ensures IsOn(Run(s, steps)) == match LastSuccess(steps)
                                   case None => IsOn(s)
                                   case Some(a) => a == TurnOn
  {
    if |steps| > 0 {
      RunFollowsLastSuccess(s, steps[..|steps| - 1]);
    }
  }
}
