/** The specialization gate: the `PlayIntegrityFix` module's callbacks
    `preAppSpecialize`, `postAppSpecialize` and `preServerSpecialize`.

    The module's only state across the callbacks is `appDir`. Each callback is a
    function from the state and its inputs to the new state and the trace of
    effects it has on the host: options set, companion connections (with the
    request bytes sent on them), the hook installed, the payload loaded. The
    companion's reply and the outcome of the symbol lookup are inputs. */
module Gate {
  import opened Common
  import Provisioning

  /** The options a module can ask the host for. */
  datatype ZygiskOption = ForceDenylistUnmount | DlcloseModuleLibrary

  datatype Effect =
    | SetOption(option: ZygiskOption)
    | ConnectCompanion(request: Bytes)   // one connection and the bytes sent on it
    | InstallHook                        // `my_hook` placed over `__system_property_read_callback`
    | LoadPayload(dexPath: Bytes)        // the payload's class loader built and its entry point called

  datatype GateState = GateState(appDir: Bytes)

  /** A freshly loaded module: `appDir` is an empty string. */
  const Initial := GateState([])

  datatype Step = Step(state: GateState, effects: seq<Effect>)

  /** The namespace of the target application and its one process of interest. */
  const GmsPrefix := FromAscii("com.google.android.gms")
  const UnstableProcess := GmsPrefix + FromAscii(".unstable")

  /** The options a trace sets. */
  function Options(effects: seq<Effect>): (r: set<ZygiskOption>)
    ensures forall o :: o in r <==> SetOption(o) in effects
  {
    if effects == [] then {}
    else (if effects[0].SetOption? then {effects[0].option} else {}) + Options(effects[1..])
  }

  /** How many companion connections a trace opens. */
  function Connections(effects: seq<Effect>): (n: nat)
    ensures n <= |effects|
    ensures n == 0 <==> forall i :: 0 <= i < |effects| ==> !effects[i].ConnectCompanion?
  {
    if effects == [] then 0
    else (if effects[0].ConnectCompanion? then 1 else 0) + Connections(effects[1..])
  }

  /** The paths a trace loads a payload from, in order. */
  function Loads(effects: seq<Effect>): (r: seq<Bytes>)
    ensures |r| <= |effects|
    ensures forall p :: p in r <==> LoadPayload(p) in effects
    ensures r == [] <==> forall i :: 0 <= i < |effects| ==> !effects[i].LoadPayload?
  {
    if effects == [] then []
    else (if effects[0].LoadPayload? then [effects[0].dexPath] else []) + Loads(effects[1..])
  }

  lemma {:induction false} ObserversAppend(a: seq<Effect>, b: seq<Effect>)
    ensures Options(a + b) == Options(a) + Options(b)
    ensures Connections(a + b) == Connections(a) + Connections(b)
    ensures Loads(a + b) == Loads(a) + Loads(b)
  {
    if a != [] {
      assert (a + b)[1..] == a[1..] + b;
      ObserversAppend(a[1..], b);
    } else {
      assert a + b == b;
    }
  }

  /** `preAppSpecialize`: a process outside the namespace asks to be unloaded and
      nothing more. Inside it, the denylist unmount is forced; the unstable process
      alone records its data directory, sends it to the companion, and on a
      negative reply forgets it again and asks to be unloaded. */
  function PreAppSpecialize(s: GateState, niceName: Bytes, appDataDir: Bytes, reply: bool): (r: Step)
    ensures !StartsWith(niceName, GmsPrefix) ==>
      r.state == s && r.effects == [SetOption(DlcloseModuleLibrary)]
    ensures StartsWith(niceName, GmsPrefix) ==> ForceDenylistUnmount in Options(r.effects)
    ensures StartsWith(niceName, GmsPrefix) && niceName != UnstableProcess ==>
      r.effects == [SetOption(ForceDenylistUnmount)]
    ensures Connections(r.effects) == (if niceName == UnstableProcess then 1 else 0)
    ensures niceName != UnstableProcess ==> r.state == s
    ensures Loads(r.effects) == [] && InstallHook !in r.effects
    ensures niceName == UnstableProcess ==>
      && ConnectCompanion(Provisioning.EncodeRequest(appDataDir)) in r.effects
      && r.state.appDir == (if reply then appDataDir else [])
      && (DlcloseModuleLibrary in Options(r.effects) <==> !reply)
  {
    if !StartsWith(niceName, GmsPrefix) then
      Step(s, [SetOption(DlcloseModuleLibrary)])
    else if niceName == UnstableProcess then
      var connect := ConnectCompanion(Provisioning.EncodeRequest(appDataDir));
      if reply then
        Step(GateState(appDataDir), [SetOption(ForceDenylistUnmount), connect])
      else
        Step(GateState([]), [SetOption(ForceDenylistUnmount), connect, SetOption(DlcloseModuleLibrary)])
    else
      Step(s, [SetOption(ForceDenylistUnmount)])
  }

  /** `postAppSpecialize`: with no directory recorded it does nothing; otherwise it
      looks up `__system_property_read_callback` and, when found, installs the hook
      and then loads "/SNFix.dex" from the recorded directory. Every way out
      forgets the directory. */
  function PostAppSpecialize(s: GateState, symbolResolved: bool): (r: Step)
    ensures r.state.appDir == []
    ensures s.appDir == [] ==> r.effects == []
    ensures !symbolResolved ==> InstallHook !in r.effects && Loads(r.effects) == []
    ensures s.appDir != [] && symbolResolved ==>
      r.effects == [InstallHook, LoadPayload(s.appDir + Provisioning.PayloadName)]
    ensures Connections(r.effects) == 0 && Options(r.effects) == {}
  {
    if s.appDir == [] then Step(s, [])
    else if !symbolResolved then Step(GateState([]), [])
    else Step(GateState([]), [InstallHook, LoadPayload(s.appDir + Provisioning.PayloadName)])
  }

  /** `preServerSpecialize`: the system server never needs the module. */
  function PreServerSpecialize(s: GateState): (r: Step)
    ensures r.state == s
    ensures Options(r.effects) == {DlcloseModuleLibrary}
    ensures |r.effects| == 1
  {
    Step(s, [SetOption(DlcloseModuleLibrary)])
  }

  /** The unstable process is inside the namespace, so it reaches the companion. */
  lemma UnstableIsInNamespace()
    ensures StartsWith(UnstableProcess, GmsPrefix)
  {
    StartsWithAppend(GmsPrefix, FromAscii(".unstable"), GmsPrefix);
  }
}
