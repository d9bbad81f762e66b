/** `SwitchSourceUseCase.execute`, which the `lib/` tree
    (lib/application/switch_source_use_case.py) and the `src/` tree
    (src/application/switch_source_use_case.py) define alike: reject a name
    that is empty or all whitespace, then ask the audio client to make the
    source the default and then to move the capture streams to it. The
    client is abstract: each of its two calls either returns or raises, as
    given, and the method returns the calls it made, in order. */
module SwitchSourceUseCase {
  import opened Text
  import opened Process
  import PactlStreams
  import MacOSClient

  const EmptyNameMessage: string := "Source name cannot be empty"

  /** A call on the audio client. */
  datatype ClientCall = SetDefault(name: string) | MoveStreams(name: string)

  /** How `execute` ends: normally, with the `ValueError` for a blank name,
      or with the error a client call raised. */
  datatype SwitchOutcome = Switched | Rejected(message: string) | Failed(message: string)

  /** The name holds only whitespace (the empty name included). */
  predicate Blank(name: string)
  {
    forall i :: 0 <= i < |name| ==> IsSpace(name[i])
  }

  /** `execute(source_name)`, given how the client's `set_default_source`
      and `move_streams_to_source` end. A blank name is rejected before any
      call; otherwise set-default comes first, with the name as given, and
      move-streams follows only if set-default returned. */
  method Execute(name: string, setDefault: CallResult, moveStreams: CallResult)
    returns (calls: seq<ClientCall>, r: SwitchOutcome)
    ensures Blank(name) <==> r == Rejected(EmptyNameMessage)
    ensures Blank(name) ==> calls == []
    ensures !Blank(name) && setDefault.Throws? ==>
              calls == [SetDefault(name)] && r == Failed(setDefault.message)
    ensures !Blank(name) && setDefault.Returns? ==>
              calls == [SetDefault(name), MoveStreams(name)]
              && r == (if moveStreams.Throws? then Failed(moveStreams.message) else Switched)
    ensures r == Switched <==> !Blank(name) && setDefault.Returns? && moveStreams.Returns?
    ensures calls <= [SetDefault(name), MoveStreams(name)]
  {
    calls := [];
    BlankIffAllSpace(name);
    if name == "" || Strip(name) == "" {
      r := Rejected(EmptyNameMessage);
      return;
    }
    calls := calls + [SetDefault(name)];
    if setDefault.Throws? {
      r := Failed(setDefault.message);
      return;
    }
    calls := calls + [MoveStreams(name)];
    if moveStreams.Throws? {
      r := Failed(moveStreams.message);
      return;
    }
    r := Switched;
  }

  /** Over either pactl client: neither call ever raises, so every
      non-blank name leads to both calls and a normal return, whatever the
      tool answers to set-default. */
  method SwitchWithPactl(name: string, setOutcome: Outcome) returns (calls: seq<ClientCall>, r: SwitchOutcome)
    ensures Blank(name) ==> calls == [] && r == Rejected(EmptyNameMessage)
    ensures !Blank(name) ==> calls == [SetDefault(name), MoveStreams(name)] && r == Switched
  {
    calls, r := Execute(name, PactlStreams.SetDefaultSource(name, setOutcome).result, Returns);
  }

  /** Over the macOS client, whose set-default is strict: unless the tool
      exits with 0, the error reaches the caller and streams are not moved;
      its move-streams never raises. */
  method SwitchWithMacOS(c: MacOSClient.Client, name: string, setOutcome: Outcome)
    returns (calls: seq<ClientCall>, r: SwitchOutcome)
    ensures Blank(name) ==> calls == [] && r == Rejected(EmptyNameMessage)
    ensures !Blank(name) && !(setOutcome.Exited? && setOutcome.returnCode == 0) ==>
              calls == [SetDefault(name)] && r.Failed?
    ensures !Blank(name) && setOutcome.Exited? && setOutcome.returnCode == 0 ==>
              calls == [SetDefault(name), MoveStreams(name)] && r == Switched
  {
    calls, r := Execute(name, MacOSClient.SetDefaultSource(c, name, setOutcome).result, Returns);
  }
}
