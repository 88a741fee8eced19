/**
 * The options the modelled commands are registered with, and what the
 * dispatcher then does with them: `leave` stays silent outside guilds, the
 * cross-channel `say` leaves the dispatcher nothing to send, and `repeat`
 * goes wrong on its argument count.
 */
module CommandTable {
  import opened Wrappers
  import opened JsText
  import opened JsObject
  import opened Messages
  import opened Commands
  import opened Dispatcher
  import Games

  const NoOptions: Options := Options(None, None, None, None, None, None, None, None)

  const LeaveError: string := "There was an error processing your request."

  /** `leave`: guild only, no arguments needed, its own error text. */
  function LeaveDefinition(run: (Message, seq<string>) -> Attempt<Option<Content>>): (d: Definition)
    ensures var c := MakeCommand(d);
      && c.name == "leave" && c.guildOnly && !c.dmOnly && !c.argsRequired
      && c.errorMessage == LeaveError && c.requirements.None? && !c.deleteCommand
  {
    Definition("leave", None, Deferred(run), None,
      NoOptions.(argsRequired := Some(false), errorMessage := Some(LeaveError), guildOnly := Some(true)))
  }

  /**
   * Outside a guild text channel `/leave` does nothing at all: no prompt, no
   * change to the confirmation list, no error text.
   */
  lemma LeaveSilentOutsideGuild(run: (Message, seq<string>) -> Attempt<Option<Content>>, m: Message, env: Env)
    requires m.channel.kind != GuildText
    ensures Guarded(MakeCommand(LeaveDefinition(run)), m, env) == []
  {
    var c := MakeCommand(LeaveDefinition(run));
    assert !MissingArguments(c, m) && WrongContext(c, m);
  }

  /** When the `leave` generator throws, the one message sent is its own error text. */
  lemma LeaveErrorText(run: (Message, seq<string>) -> Attempt<Option<Content>>, m: Message, env: Env)
    requires m.channel.kind == GuildText && run(m, Arguments(m.content)) == Threw
    ensures Guarded(MakeCommand(LeaveDefinition(run)), m, env) == [RunGenerator, Send(m.channel.id, Text(LeaveError))]
  {
    var c := MakeCommand(LeaveDefinition(run));
    assert !MissingArguments(c, m) && !WrongContext(c, m);
    NoRequirementsPass(c, m);
  }

  /** `say` and `type`: test pilots and the host, or members who may manage messages; the trigger is deleted. */
  function SayDefinition(name: string, allowed: seq<string>, run: (Message, seq<string>) -> Attempt<Option<Content>>,
                         post: PostHook): (d: Definition)
    ensures var c := MakeCommand(d);
      && c.name == name && c.deleteCommand && c.argsRequired && !c.guildOnly && !c.dmOnly
      && c.postGenerator == Some(post) && c.errorMessage == DefaultError
      && c.requirements == Some(Requirements(Some(allowed), None, None, Some([Prop("manageMessages", true)]), None))
  {
    Definition(name, None, Deferred(run), Some(post),
      NoOptions.(deleteCommand := Some(true),
        requirements := Some(Requirements(Some(allowed), None, None, Some([Prop("manageMessages", true)]), None))))
  }

  /**
   * On the cross-channel path the generator returns nothing: the dispatcher
   * sends nothing, hands the post-generator no sent message, and still asks
   * for the trigger to be deleted.
   */
  lemma CrossChannelSayLeavesNothingToSend(name: string, allowed: seq<string>,
      run: (Message, seq<string>) -> Attempt<Option<Content>>, post: PostHook, m: Message, env: Env)
    requires post(m, Arguments(m.content), None) == Done(())
    ensures var r := AfterGenerator(MakeCommand(SayDefinition(name, allowed, run, post)), m, Arguments(m.content), None, env);
      r == Run([RunGenerator, RunPostGenerator(None), RequestDelete], false)
  {
  }

  /**
   * `repeat` with the as-written reply as its generator. Its alias `rep` sits
   * inside the options, where the `Command` constructor does not look.
   */
  function RepeatDefinition(): (d: Definition)
    ensures var c := MakeCommand(d);
      && c.name == "repeat" && c.aliases.None? && c.argsRequired && c.requirements.None?
      && c.errorMessage == DefaultError && c.postGenerator.None? && !c.deleteCommand
  {
    Definition("repeat", None,
      Deferred((m: Message, args: seq<string>) =>
        match Games.RepeatReply(m.content, args)
        case Threw => Threw
        case Done(t) => Done(Some(Text(t)))),
      None, NoOptions)
  }

  /**
   * `/repeat <n>` with a single argument passes the argument check, then
   * reading `args[1].length` throws and the default error text is sent.
   */
  lemma RepeatOneArgumentErrors(m: Message, env: Env)
    requires |Arguments(m.content)| == 1
    ensures Guarded(MakeCommand(RepeatDefinition()), m, env) == [RunGenerator, Send(m.channel.id, Text(DefaultError))]
  {
    var c := MakeCommand(RepeatDefinition());
    assert !MissingArguments(c, m) && !WrongContext(c, m);
    NoRequirementsPass(c, m);
  }

  /** The well-formed `/repeat 3 hi` produces an empty reply, which the dispatcher does not send. */
  lemma RepeatAsWrittenSendsNothing(m: Message, env: Env)
    requires Arguments(m.content) == ["3", "hi"]
    ensures var run := Guarded(MakeCommand(RepeatDefinition()), m, env);
      forall e :: e in run ==> !e.Send?
  {
    var c := MakeCommand(RepeatDefinition());
    assert !MissingArguments(c, m) && !WrongContext(c, m);
    NoRequirementsPass(c, m);
    assert Games.RepeatReply(m.content, ["3", "hi"]) == Done("") by {
      assert Games.ToNumber("hi") == Games.NaN by {
        assert !Games.IsDigit('h');
      }
    }
    assert !Truthy(Some(Text("")));
  }
}
