/** One app specialization from start to end: the module is loaded fresh,
    `preAppSpecialize` runs (talking to the companion when it has to), then
    `postAppSpecialize` runs. These lemmas relate what the whole event does to
    the process's name, its data directory, the companion's file copy and the
    symbol lookup. */
module Lifecycle {
  import opened Common
  import opened Gate
  import Provisioning

  /** An app specialization given the companion's reply and the symbol lookup's
      outcome: the effects of both callbacks, in order, and the state left behind. */
  function SpecializeApp(niceName: Bytes, appDataDir: Bytes, reply: bool, symbolResolved: bool): Step
  {
    var pre := PreAppSpecialize(Initial, niceName, appDataDir, reply);
    var post := PostAppSpecialize(pre.state, symbolResolved);
    Step(post.state, pre.effects + post.effects)
  }

  /** The reply the unstable process reads back when the companion serves its
      request with file copy `copyFile`; `false` when the companion sends nothing. */
  function CompanionReply(appDataDir: Bytes, copyFile: Bytes -> bool): bool
  {
    match Provisioning.Companion(Provisioning.EncodeRequest(appDataDir), copyFile)
    case Some(served) => Provisioning.DecodeReply(served.reply) == Some(true)
    case None => false
  }

  /** Outside the namespace: the module asks to be unloaded, never forces the
      denylist unmount, never reaches the companion, never hooks or loads, and
      keeps no directory. */
  lemma OutsideNamespaceOnlyUnloads(niceName: Bytes, appDataDir: Bytes, reply: bool, symbolResolved: bool)
    requires !StartsWith(niceName, GmsPrefix)
    ensures var r := SpecializeApp(niceName, appDataDir, reply, symbolResolved);
      && r.effects == [SetOption(DlcloseModuleLibrary)]
      && Options(r.effects) == {DlcloseModuleLibrary}
      && Connections(r.effects) == 0
      && r.state.appDir == []
  {
  }

  /** The companion is reached exactly once for the unstable process and never for
      any other; nothing is ever loaded for another name. */
  lemma {:induction false} OneConnectionForUnstableOnly(niceName: Bytes, appDataDir: Bytes, reply: bool, symbolResolved: bool)
    ensures var r := SpecializeApp(niceName, appDataDir, reply, symbolResolved);
      && Connections(r.effects) == (if niceName == UnstableProcess then 1 else 0)
      && (niceName != UnstableProcess ==> Loads(r.effects) == [] && InstallHook !in r.effects)
  {
    var pre := PreAppSpecialize(Initial, niceName, appDataDir, reply);
    var post := PostAppSpecialize(pre.state, symbolResolved);
    ObserversAppend(pre.effects, post.effects);
  }

  /** Whatever happens, the event leaves no directory behind. */
  lemma DirectoryAlwaysReleased(niceName: Bytes, appDataDir: Bytes, reply: bool, symbolResolved: bool)
    ensures SpecializeApp(niceName, appDataDir, reply, symbolResolved).state.appDir == []
  {
  }

  /** The payload is loaded if, and only if, the process is the unstable one, the
      companion said yes, the directory is not empty and the symbol was found; it
      is then loaded once, from the directory's "/SNFix.dex", after the hook. */
  lemma {:induction false} PayloadLoadedExactlyWhen(niceName: Bytes, appDataDir: Bytes, reply: bool, symbolResolved: bool)
    ensures var r := SpecializeApp(niceName, appDataDir, reply, symbolResolved);
      var loaded := niceName == UnstableProcess && reply && appDataDir != [] && symbolResolved;
      && (Loads(r.effects) != [] <==> loaded)
      && (InstallHook in r.effects <==> loaded)
      && (loaded ==> Loads(r.effects) == [appDataDir + Provisioning.PayloadName]
                     && r.effects[|r.effects| - 2..] == [InstallHook, LoadPayload(appDataDir + Provisioning.PayloadName)])
  {
    var pre := PreAppSpecialize(Initial, niceName, appDataDir, reply);
    var post := PostAppSpecialize(pre.state, symbolResolved);
    ObserversAppend(pre.effects, post.effects);
    if niceName == UnstableProcess {
      UnstableIsInNamespace();
    }
  }

  /** The module never asks to be unloaded once it has hooked: unloading the
      library would leave the hook pointing at code that is gone. */
  lemma {:induction false} UnloadExcludesHook(niceName: Bytes, appDataDir: Bytes, reply: bool, symbolResolved: bool)
    ensures var r := SpecializeApp(niceName, appDataDir, reply, symbolResolved);
      DlcloseModuleLibrary in Options(r.effects) ==> InstallHook !in r.effects
  {
    var pre := PreAppSpecialize(Initial, niceName, appDataDir, reply);
    var post := PostAppSpecialize(pre.state, symbolResolved);
    ObserversAppend(pre.effects, post.effects);
    PayloadLoadedExactlyWhen(niceName, appDataDir, reply, symbolResolved);
    if niceName == UnstableProcess && reply {
      UnstableIsInNamespace();
      assert DlcloseModuleLibrary !in Options(pre.effects);
    }
  }

  /** Unloading is requested if, and only if, the process is outside the
      namespace, or it is the unstable process and the companion said no; the
      other processes of the namespace keep the module loaded. */
  lemma {:induction false} UnloadRequestedExactlyWhen(niceName: Bytes, appDataDir: Bytes, reply: bool, symbolResolved: bool)
    ensures DlcloseModuleLibrary in Options(SpecializeApp(niceName, appDataDir, reply, symbolResolved).effects)
      <==> !StartsWith(niceName, GmsPrefix) || (niceName == UnstableProcess && !reply)
  {
    var pre := PreAppSpecialize(Initial, niceName, appDataDir, reply);
    var post := PostAppSpecialize(pre.state, symbolResolved);
    ObserversAppend(pre.effects, post.effects);
    if niceName == UnstableProcess {
      UnstableIsInNamespace();
    }
  }

  /** End to end, for the unstable process and a directory whose length fits the
      length field: the payload is loaded if, and only if, the companion's copy to
      the directory's "/SNFix.dex" succeeded, the directory is not empty and the
      symbol was found; and it is loaded from the very file the companion wrote. */
  lemma {:induction false} ProvisionedPayloadIsLoaded(appDataDir: Bytes, copyFile: Bytes -> bool, symbolResolved: bool)
    requires |appDataDir| <= Provisioning.Int32Max
    ensures var reply := CompanionReply(appDataDir, copyFile);
      var r := SpecializeApp(UnstableProcess, appDataDir, reply, symbolResolved);
      var served := Provisioning.Companion(Provisioning.EncodeRequest(appDataDir), copyFile);
      && served.Some?
      && (Loads(r.effects) != [] <==> copyFile(served.value.destination) && appDataDir != [] && symbolResolved)
      && (Loads(r.effects) != [] ==> Loads(r.effects) == [served.value.destination])
  {
    Provisioning.CompanionServesRequest(appDataDir, [], copyFile);
    assert Provisioning.EncodeRequest(appDataDir) + [] == Provisioning.EncodeRequest(appDataDir);
    PayloadLoadedExactlyWhen(UnstableProcess, appDataDir, CompanionReply(appDataDir, copyFile), symbolResolved);
  }
}
