/**
 * The command parser: the registry of commands, the per-invocation pipeline
 * of `executeCommand`, and `onMessage`, which decides whether a message is an
 * invocation, resolves it and runs it inside a failure boundary.
 *
 * A run is described by the effects it has, in order. The specification
 * functions `Pipeline`, `Guarded` and `Dispatch` give the trace for every
 * input; the class `CommandParser` holds the registry and computes the same
 * traces step by step.
 */
module Dispatcher {
  import opened Wrappers
  import opened JsText
  import opened JsObject
  import opened Messages
  import opened Commands

  /** What the bot does while handling one message. */
  datatype Effect =
    | Send(channel: string, content: Content)   // a message created in the channel of the trigger
    | RunGenerator                               // `command.execute` runs the generator
    | RunPostGenerator(sent: Option<Sent>)       // the post-generator is called with `sent`
    | RequestDelete                              // deletion of the triggering message is requested
    | Fallback                                   // the message goes to the conversational fallback

  /**
   * What the gateway answers during one run: the insult chosen for a denial,
   * whether the bot may send in the channel, whether the awaited send throws,
   * the id of the message it creates, and whether deleting throws.
   */
  datatype Env = Env(insult: string, botCanSend: bool, sendThrows: bool, sentId: string, deleteThrows: bool)

  /** A run of `executeCommand`: its effects, and whether it ended by throwing. */
  datatype Run = Run(effects: seq<Effect>, threw: bool)

  /** `message.content.split(' ')`. */
  function Tokens(content: string): (r: seq<string>)
    ensures |r| >= 1
  {
    SplitOn(content, " ")
  }

  /** The arguments: the tokens after the first (`split(' ')` then `shift()`). */
  function Arguments(content: string): seq<string>
  {
    Tokens(content)[1..]
  }

  const DenialPrefix: string := "**Thankfully, you don't have enough permissions for that, you "

  /** The denial text: the fixed prefix, the insult, and the closing `.**`. */
  function Denial(insult: string): (r: string)
    ensures StartsWith(r, DenialPrefix)
    ensures |r| == |DenialPrefix| + |insult| + 3
    ensures r[|DenialPrefix|..|DenialPrefix| + |insult|] == insult
    ensures r[|r| - 3..] == ".**"
  {
    DenialPrefix + insult + ".**"
  }

  /** The send gate: a truthy result, a member on the message, and the bot may send there. */
  predicate MaySend(response: Option<Content>, m: Message, env: Env) {
    Truthy(response) && m.member.Some? && env.botCanSend
  }

  /** The context check: a guild-only command outside a guild channel, or a DM-only one outside a DM. */
  predicate WrongContext(c: Command, m: Message) {
    (c.guildOnly && m.channel.kind != GuildText) || (c.dmOnly && m.channel.kind != DirectMessage)
  }

  /** The argument check: no argument token although arguments are required. */
  predicate MissingArguments(c: Command, m: Message) {
    |Arguments(m.content)| == 0 && c.argsRequired
  }

  /**
   * `executeCommand` for every input, as a trace. A run that stops before the
   * generator sends at most one message and does nothing else.
   */
  function Pipeline(c: Command, m: Message, env: Env): (r: Run)
    ensures Fallback !in r.effects
    ensures RunGenerator !in r.effects ==> |r.effects| <= 1 && forall e :: e in r.effects ==> e.Send?
    ensures r.threw ==> !MissingArguments(c, m) && !WrongContext(c, m)
  {
    var here := m.channel.id;
    if MissingArguments(c, m) then Run([Send(here, Text(c.invalidUsageMessage))], false)
    else if WrongContext(c, m) then Run([], false)
    else match RequirementsCheck(c, m)
      case Threw => Run([], true)
      case Done(false) => Run([Send(here, Text(Denial(env.insult)))], false)
      case Done(true) =>
        var args := Arguments(m.content);
        match Execute(c, m, args)
        case Threw => Run([RunGenerator], true)
        case Done(response) => AfterGenerator(c, m, args, response, env)
  }

  /** The part of the pipeline after a generator returned `response`. */
  function AfterGenerator(c: Command, m: Message, args: seq<string>, response: Option<Content>, env: Env): (r: Run)
    ensures |r.effects| >= 1 && r.effects[0] == RunGenerator
    ensures RequestDelete in r.effects <==> c.deleteCommand && !r.threw
  {
    var here := m.channel.id;
    if MaySend(response, m, env) && env.sendThrows then Run([RunGenerator], true)
    else
      var sent := if MaySend(response, m, env) then Some(Sent(env.sentId, here)) else None;
      var sends := if sent.Some? then [Send(here, response.value)] else [];
      AfterSend(c, m, args, sent, [RunGenerator] + sends)
  }

  /**
   * The stages after the send, appended to the effects so far: the
   * post-generator with the sent message, then the delete request, which a
   * throwing post-generator skips.
   */
  function AfterSend(c: Command, m: Message, args: seq<string>, sent: Option<Sent>, before: seq<Effect>): (r: Run)
    ensures |before| <= |r.effects| <= |before| + 2 && r.effects[..|before|] == before
    ensures RequestDelete in r.effects[|before|..] <==> c.deleteCommand && !r.threw
  {
    var hook := if c.postGenerator.Some? then [RunPostGenerator(sent)] else [];
    var hooked := before + hook;
    assert hooked[|before|..] == hook;
    if c.postGenerator.Some? && c.postGenerator.value(m, args, sent).Threw? then Run(hooked, true)
    else
      var tail := if c.deleteCommand then [RequestDelete] else [];
      assert (hooked + tail)[|before|..] == hook + tail;
      Run(hooked + tail, false)
  }

  /** The failure boundary of `onMessage`: a throw becomes one error message. */
  function Guarded(c: Command, m: Message, env: Env): (r: seq<Effect>)
    ensures var run := Pipeline(c, m, env).effects;
      |run| <= |r| <= |run| + 1 && r[..|run|] == run
    ensures Fallback !in r
  {
    var run := Pipeline(c, m, env);
    if run.threw then run.effects + [Send(m.channel.id, Text(c.errorMessage))] else run.effects
  }

  /** Every key of the order is registered. */
  predicate KeysRegistered(keys: seq<string>, commands: map<string, Command>) {
    forall i :: 0 <= i < |keys| ==> keys[i] in commands
  }

  /** The key order lists every registered name exactly once. */
  predicate RegistryValid(keys: seq<string>, commands: map<string, Command>) {
    && KeysRegistered(keys, commands)
    && (forall i, j :: 0 <= i < j < |keys| ==> keys[i] != keys[j])
    && (forall k :: k in commands ==> k in keys)
  }

  /** The key at `i` is the token, or its command has the token as an alias. */
  predicate MatchesAt(keys: seq<string>, commands: map<string, Command>, token: string, i: int)
    requires KeysRegistered(keys, commands)
  {
    0 <= i < |keys| && (token == keys[i] || HasAlias(commands[keys[i]], token))
  }

  /** The first key at or after `from`, in key order, that the token matches. */
  function ResolveFrom(keys: seq<string>, commands: map<string, Command>, token: string, from: nat): (r: Option<nat>)
    requires KeysRegistered(keys, commands)
    ensures r.Some? ==> from <= r.value && MatchesAt(keys, commands, token, r.value)
    ensures r.Some? ==> forall j :: from <= j < r.value ==> !MatchesAt(keys, commands, token, j)
    ensures r.None? ==> forall j :: from <= j ==> !MatchesAt(keys, commands, token, j)
    decreases |keys| - from
  {
    if from >= |keys| then None
    else if MatchesAt(keys, commands, token, from) then Some(from)
    else ResolveFrom(keys, commands, token, from + 1)
  }

  function Resolve(keys: seq<string>, commands: map<string, Command>, token: string): Option<nat>
    requires KeysRegistered(keys, commands)
  {
    ResolveFrom(keys, commands, token, 0)
  }

  /** The command token: the first token without its first character, lower-cased. */
  function CommandToken(m: Message): (r: string)
    requires StartsWith(Tokens(m.content)[0], "/")
    ensures |r| == |Tokens(m.content)[0]| - 1
    ensures forall i :: 0 <= i < |r| ==> !IsUpper(r[i])
  {
    ToLower(Tokens(m.content)[0][1..])
  }

  /** `onMessage` for every input, as a trace. */
  function Dispatch(keys: seq<string>, commands: map<string, Command>, m: Message, env: Env): (r: seq<Effect>)
    requires KeysRegistered(keys, commands)
    ensures Fallback in r ==> r == [Fallback]
  {
    if !StartsWith(Tokens(m.content)[0], "/") then [Fallback]
    else if m.author.None? || m.author.value.bot then []
    else match Resolve(keys, commands, CommandToken(m))
      case None => [Fallback]
      case Some(i) => Guarded(commands[keys[i]], m, env)
  }

  class CommandParser {
    /** `Object.keys(this.commands)`: the registered names in insertion order. */
    var keys: seq<string>
    var commands: map<string, Command>

    ghost predicate Valid()
      reads this
    {
      RegistryValid(keys, commands)
    }

    constructor ()
      ensures Valid() && keys == [] && commands == map[]
    {
      keys := [];
      commands := map[];
    }

    /**
     * `registerCommand`: stores the constructed command under its name. A name
     * already present is overwritten and keeps its place in the key order.
     */
    method RegisterCommand(d: Definition)
      requires Valid()
      modifies this
      ensures Valid()
      ensures commands == old(commands)[d.name := MakeCommand(d)]
      ensures keys == if d.name in old(commands) then old(keys) else old(keys) + [d.name]
    {
      if d.name !in commands {
        keys := keys + [d.name];
      }
      commands := commands[d.name := MakeCommand(d)];
    }

    /** `executeCommand`: the checks in their fixed order, then the generator and what follows it. */
    method ExecuteCommand(command: Command, message: Message, env: Env) returns (run: Run)
      ensures run == Pipeline(command, message, env)
    {
      var args := SplitOn(message.content, " ")[1..];
      var here := message.channel.id;
      if |args| == 0 && command.argsRequired {
        return Run([Send(here, Text(command.invalidUsageMessage))], false);
      } else if command.guildOnly && message.channel.kind != GuildText {
        return Run([], false);
      } else if command.dmOnly && message.channel.kind != DirectMessage {
        return Run([], false);
      }
      var allowed := RequirementsCheck(command, message);
      if allowed.Threw? {
        return Run([], true);
      } else if !allowed.value {
        return Run([Send(here, Text(Denial(env.insult)))], false);
      }
      assert args == Arguments(message.content);
      assert !MissingArguments(command, message) && !WrongContext(command, message);
      var messageToSend := Execute(command, message, args);
      if messageToSend.Threw? {
        return Run([RunGenerator], true);
      }
      run := Respond(command, message, args, messageToSend.value, env);
    }

    /** The rest of `executeCommand` once the generator returned `response`: the send gate, then the later stages. */
    method Respond(command: Command, message: Message, args: seq<string>, response: Option<Content>, env: Env)
      returns (run: Run)
      ensures run == AfterGenerator(command, message, args, response, env)
    {
      var here := message.channel.id;
      var effects := [RunGenerator];
      var sent: Option<Sent> := None;
      if MaySend(response, message, env) {
        if env.sendThrows {
          return Run(effects, true);
        }
        sent := Some(Sent(env.sentId, here));
        effects := effects + [Send(here, response.value)];
      }
      run := Finish(command, message, args, sent, effects);
    }

    /** The post-generator, then the delete request, after the effects so far. */
    method Finish(command: Command, message: Message, args: seq<string>, sent: Option<Sent>, before: seq<Effect>)
      returns (run: Run)
      ensures run == AfterSend(command, message, args, sent, before)
    {
      var effects := before;
      if command.postGenerator.Some? {
        effects := effects + [RunPostGenerator(sent)];
        var hook := command.postGenerator.value(message, args, sent);
        if hook.Threw? {
          return Run(effects, true);
        }
      }
      if command.deleteCommand {
        // The request is made; a throw from it (env.deleteThrows) is caught and dropped.
        effects := effects + [RequestDelete];
      }
      return Run(effects, false);
    }

    /** `onMessage`: walks the keys in order and runs the first command the token matches. */
    method OnMessage(message: Message, env: Env) returns (effects: seq<Effect>)
      requires Valid()
      ensures effects == Dispatch(keys, commands, message, env)
    {
      var first := SplitOn(message.content, " ")[0];
      if !StartsWith(first, "/") {
        return [Fallback];
      }
      var commandExec := ToLower(first[1..]);
      if message.author.None? || message.author.value.bot {
        return [];
      }
      var i := 0;
      while i < |keys|
        invariant 0 <= i <= |keys|
        invariant Resolve(keys, commands, commandExec) == ResolveFrom(keys, commands, commandExec, i)
      {
        var command := commands[keys[i]];
        if commandExec == keys[i] || HasAlias(command, commandExec) {
          var run := ExecuteCommand(command, message, env);
          if run.threw {
            effects := run.effects + [Send(message.channel.id, Text(command.errorMessage))];
          } else {
            effects := run.effects;
          }
          return;
        }
        i := i + 1;
      }
      return [Fallback];
    }
  }
}

/** What the dispatcher guarantees about the traces it produces. */
module DispatcherProperties {
  import opened Wrappers
  import opened JsText
  import opened JsObject
  import opened Messages
  import opened Commands
  import opened Dispatcher

  /** The stage an effect belongs to, in pipeline order. */
  function Rank(e: Effect): nat {
    match e
    case RunGenerator => 0
    case Send(_, _) => 1
    case RunPostGenerator(_) => 2
    case RequestDelete => 3
    case Fallback => 4
  }

  /** Effects come in strictly increasing stage order, so each stage happens at most once. */
  predicate InStageOrder(effects: seq<Effect>) {
    forall i, j :: 0 <= i < j < |effects| ==> Rank(effects[i]) < Rank(effects[j])
  }

  /** `e` occurs at most once in the trace. */
  predicate AtMostOnce(effects: seq<Effect>, e: Effect) {
    forall i, j :: 0 <= i < j < |effects| && effects[i] == e ==> effects[j] != e
  }

  /** Zero argument tokens with arguments required: only the usage message; nothing else is checked or run. */
  lemma ArgumentCheckFirst(c: Command, m: Message, env: Env)
    requires MissingArguments(c, m)
    ensures Pipeline(c, m, env) == Run([Send(m.channel.id, Text(c.invalidUsageMessage))], false)
  {
  }

  /** A guild-only or DM-only mismatch ends the run silently, before the permission check. */
  lemma ContextCheckSilent(c: Command, m: Message, env: Env)
    requires !MissingArguments(c, m) && WrongContext(c, m)
    ensures Pipeline(c, m, env) == Run([], false)
  {
  }

  /** A failed requirement sends exactly one denial, and the generator never runs. */
  lemma DenialShortCircuit(c: Command, m: Message, env: Env)
    requires !MissingArguments(c, m) && !WrongContext(c, m)
    requires RequirementsCheck(c, m) == Done(false)
    ensures Pipeline(c, m, env) == Run([Send(m.channel.id, Text(Denial(env.insult)))], false)
  {
  }

  /** The generator runs exactly when all three checks pass. */
  lemma GeneratorRunsOnlyWhenAllowed(c: Command, m: Message, env: Env)
    ensures RunGenerator in Pipeline(c, m, env).effects <==>
      !MissingArguments(c, m) && !WrongContext(c, m) && RequirementsCheck(c, m) == Done(true)
  {
  }

  /** Once the three checks pass and the generator returned `response`, the run is the after-generator stage. */
  lemma PipelineAfterGenerator(c: Command, m: Message, env: Env, response: Option<Content>)
    requires !MissingArguments(c, m) && !WrongContext(c, m)
    requires RequirementsCheck(c, m) == Done(true)
    requires Execute(c, m, Arguments(m.content)) == Done(response)
    ensures Pipeline(c, m, env) == AfterGenerator(c, m, Arguments(m.content), response, env)
  {
  }

  /**
   * After the generator returned `response`: the response is sent only through
   * the send gate; a declared post-generator always runs and receives the sent
   * message, or nothing when nothing was sent; deletion is requested only when
   * `deleteCommand` is set and the run did not throw before it.
   */
  lemma AfterGeneratorEffects(c: Command, m: Message, args: seq<string>, response: Option<Content>, env: Env)
    ensures var run := AfterGenerator(c, m, args, response, env);
      && (response.Some? ==> (Send(m.channel.id, response.value) in run.effects <==> MaySend(response, m, env) && !env.sendThrows))
      && (forall e :: e in run.effects && e.Send? ==> MaySend(response, m, env) && e == Send(m.channel.id, response.value))
      && (c.postGenerator.Some? && !(MaySend(response, m, env) && env.sendThrows) ==>
            RunPostGenerator(if MaySend(response, m, env) then Some(Sent(env.sentId, m.channel.id)) else None) in run.effects)
      && (RequestDelete in run.effects ==> c.deleteCommand && !run.threw)
      && (c.deleteCommand && !run.threw ==> run.effects[|run.effects| - 1] == RequestDelete)
  {
    var run := AfterGenerator(c, m, args, response, env);
    if !(MaySend(response, m, env) && env.sendThrows) {
      var here := m.channel.id;
      var sent := if MaySend(response, m, env) then Some(Sent(env.sentId, here)) else None;
      var sends: seq<Effect> := if sent.Some? then [Send(here, response.value)] else [];
      var hook: seq<Effect> := if c.postGenerator.Some? then [RunPostGenerator(sent)] else [];
      var tail: seq<Effect> := if c.deleteCommand then [RequestDelete] else [];
      if c.postGenerator.Some? && c.postGenerator.value(m, args, sent).Threw? {
        assert run.effects == [RunGenerator] + sends + hook;
      } else {
        assert run.effects == [RunGenerator] + sends + hook + tail;
      }
    }
  }

  /** `AfterGeneratorEffects` for the run `executeCommand` makes once the checks pass. */
  lemma AfterGeneratorBehaviour(c: Command, m: Message, env: Env, response: Option<Content>)
    requires !MissingArguments(c, m) && !WrongContext(c, m)
    requires RequirementsCheck(c, m) == Done(true)
    requires Execute(c, m, Arguments(m.content)) == Done(response)
    ensures var run := Pipeline(c, m, env);
      && (response.Some? ==> (Send(m.channel.id, response.value) in run.effects <==> MaySend(response, m, env) && !env.sendThrows))
      && (forall e :: e in run.effects && e.Send? ==> MaySend(response, m, env) && e == Send(m.channel.id, response.value))
      && (c.postGenerator.Some? && !(MaySend(response, m, env) && env.sendThrows) ==>
            RunPostGenerator(if MaySend(response, m, env) then Some(Sent(env.sentId, m.channel.id)) else None) in run.effects)
      && (RequestDelete in run.effects ==> c.deleteCommand && !run.threw)
      && (c.deleteCommand && !run.threw ==> run.effects[|run.effects| - 1] == RequestDelete)
  {
    PipelineAfterGenerator(c, m, env, response);
    AfterGeneratorEffects(c, m, Arguments(m.content), response, env);
  }

  /** Every run keeps the fixed stage order and never reaches the fallback. */
  lemma PipelineOrder(c: Command, m: Message, env: Env)
    ensures var effects := Pipeline(c, m, env).effects;
      && InStageOrder(effects)
      && Fallback !in effects
      && (RunGenerator in effects ==> effects[0] == RunGenerator)
  {
    if !MissingArguments(c, m) && !WrongContext(c, m) && RequirementsCheck(c, m) == Done(true) {
      var args := Arguments(m.content);
      match Execute(c, m, args)
      case Threw =>
      case Done(response) => AfterGeneratorOrder(c, m, args, response, env);
    }
  }

  /** The stages after the generator come in order, the generator's run first. */
  lemma AfterGeneratorOrder(c: Command, m: Message, args: seq<string>, response: Option<Content>, env: Env)
    ensures var effects := AfterGenerator(c, m, args, response, env).effects;
      && InStageOrder(effects)
      && Fallback !in effects
      && |effects| > 0 && effects[0] == RunGenerator
  {
    var here := m.channel.id;
    var sent := if MaySend(response, m, env) then Some(Sent(env.sentId, here)) else None;
    var sends: seq<Effect> := if sent.Some? then [Send(here, response.value)] else [];
    var hook: seq<Effect> := if c.postGenerator.Some? then [RunPostGenerator(sent)] else [];
    var tail: seq<Effect> := if c.deleteCommand then [RequestDelete] else [];
    StagesInOrder(sends, hook, tail);
    var r := AfterGenerator(c, m, args, response, env);
    if MaySend(response, m, env) && env.sendThrows {
      assert r.effects == [RunGenerator];
    } else {
      assert r.effects == [RunGenerator] + sends + hook || r.effects == [RunGenerator] + sends + hook + tail;
    }
  }

  /** At most one effect per stage after the generator, each of its own stage: the trace is in order. */
  lemma StagesInOrder(sends: seq<Effect>, hook: seq<Effect>, tail: seq<Effect>)
    requires |sends| <= 1 && |hook| <= 1 && |tail| <= 1
    requires forall i :: 0 <= i < |sends| ==> Rank(sends[i]) == 1
    requires forall i :: 0 <= i < |hook| ==> Rank(hook[i]) == 2
    requires forall i :: 0 <= i < |tail| ==> Rank(tail[i]) == 3
    ensures InStageOrder([RunGenerator] + sends + hook)
    ensures InStageOrder([RunGenerator] + sends + hook + tail)
    ensures Fallback !in [RunGenerator] + sends + hook + tail
  {
    var s1 := [RunGenerator] + sends;
    var s2 := s1 + hook;
    if |sends| == 1 {
      AppendInOrder([RunGenerator], sends[0]);
    }
    assert forall i :: 0 <= i < |s1| ==> Rank(s1[i]) <= 1;
    if |hook| == 1 {
      AppendInOrder(s1, hook[0]);
    }
    assert forall i :: 0 <= i < |s2| ==> Rank(s2[i]) <= 2;
    if |tail| == 1 {
      AppendInOrder(s2, tail[0]);
    }
    var s3 := s2 + tail;
    forall i | 0 <= i < |s3| ensures s3[i] != Fallback {
      assert Rank(s3[i]) <= 3;
    }
  }

  /** An effect of a later stage than all before it keeps the order. */
  lemma AppendInOrder(a: seq<Effect>, e: Effect)
    requires InStageOrder(a) && forall i :: 0 <= i < |a| ==> Rank(a[i]) < Rank(e)
    ensures InStageOrder(a + [e])
  {
    var t := a + [e];
    forall i, j | 0 <= i < j < |t| ensures Rank(t[i]) < Rank(t[j]) {
      assert t[i] == a[i];
      if j < |a| {
        assert t[j] == a[j];
      }
    }
  }

  /** Stage order implies that no effect happens twice. */
  lemma {:induction false} OrderedOnce(effects: seq<Effect>, e: Effect)
    requires InStageOrder(effects)
    ensures AtMostOnce(effects, e)
  {
    forall i, j | 0 <= i < j < |effects| && effects[i] == e
      ensures effects[j] != e
    {
      assert Rank(effects[i]) < Rank(effects[j]);
    }
  }

  /**
   * A failing delete changes nothing about the run. The delete request is not
   * awaited and sits in an empty `catch`, so `Pipeline` never reads
   * `deleteThrows`: the swallowed failure is built into the model, and this
   * lemma records that it is.
   */
  lemma DeleteFailureSwallowed(c: Command, m: Message, env: Env)
    ensures Pipeline(c, m, env) == Pipeline(c, m, env.(deleteThrows := !env.deleteThrows))
  {
  }

  /**
   * A throw can only happen once the usage and context checks passed, never
   * after the delete request, and the boundary turns it into exactly one
   * error message at the end of the trace; a run that does not throw is left as it is.
   */
  lemma FailureBoundary(c: Command, m: Message, env: Env)
    ensures var run := Pipeline(c, m, env);
      && (run.threw ==> !MissingArguments(c, m) && !WrongContext(c, m) && RequestDelete !in run.effects)
      && (run.threw ==> Guarded(c, m, env) == run.effects + [Send(m.channel.id, Text(c.errorMessage))])
      && (!run.threw ==> Guarded(c, m, env) == run.effects)
  {
  }

  /**
   * `execute` hands a static generator's value back as it is: once the checks
   * pass, a non-empty static text is what the bot sends, right after the run,
   * whatever the message and its arguments.
   */
  lemma StaticResponseSent(c: Command, m: Message, env: Env, t: string)
    requires c.generator == Static(Some(Text(t))) && t != ""
    requires !MissingArguments(c, m) && !WrongContext(c, m) && RequirementsCheck(c, m) == Done(true)
    requires m.member.Some? && env.botCanSend && !env.sendThrows
    ensures |Guarded(c, m, env)| >= 2
    ensures Guarded(c, m, env)[..2] == [RunGenerator, Send(m.channel.id, Text(t))]
  {
    var run := Pipeline(c, m, env);
    assert run.effects[..2] == [RunGenerator, Send(m.channel.id, Text(t))];
  }

  /** Scenario: a member lacking a required permission in a guild channel is denied, and nothing runs. */
  lemma LackingPermissionDenied(c: Command, m: Message, env: Env, required: Props)
    requires !MissingArguments(c, m) && !WrongContext(c, m)
    requires c.requirements == Some(Requirements(None, None, None, Some(required), None))
    requires WellFormed(required)
    requires m.channel.kind == GuildText && m.author.Some? && m.member.Some?
    requires !Covers(m.member.value.permission, required)
    ensures Pipeline(c, m, env) == Run([Send(m.channel.id, Text(Denial(env.insult)))], false)
    ensures Guarded(c, m, env) == [Send(m.channel.id, Text(Denial(env.insult)))]
  {
    GuildVerdict(c, m);
  }

  /**
   * Scenario: a custom predicate that throws, even for an allow-listed author,
   * runs nothing and answers with the command's error message alone.
   */
  lemma CustomThrowIsError(c: Command, m: Message, env: Env)
    requires !MissingArguments(c, m) && !WrongContext(c, m)
    requires c.requirements.Some? && CustomThrows(c.requirements.value, m)
    ensures Pipeline(c, m, env) == Run([], true)
    ensures Guarded(c, m, env) == [Send(m.channel.id, Text(c.errorMessage))]
  {
    CustomThrowPropagates(c, m);
  }

  /** The first resolved index is the least index the token matches. */
  lemma ResolveIsFirstMatch(keys: seq<string>, commands: map<string, Command>, token: string, i: nat)
    requires KeysRegistered(keys, commands)
    ensures Resolve(keys, commands, token) == Some(i) <==>
      MatchesAt(keys, commands, token, i) && forall j :: 0 <= j < i ==> !MatchesAt(keys, commands, token, j)
  {
  }

  /** A message whose first token does not start with `/` goes to the fallback, even from a bot. */
  lemma NonInvocationToFallback(keys: seq<string>, commands: map<string, Command>, m: Message, env: Env)
    requires KeysRegistered(keys, commands)
    requires !StartsWith(Tokens(m.content)[0], "/")
    ensures Dispatch(keys, commands, m, env) == [Fallback]
  {
  }

  /** An invocation by a bot, or without an author, does nothing at all. */
  lemma BotInvocationIgnored(keys: seq<string>, commands: map<string, Command>, m: Message, env: Env)
    requires KeysRegistered(keys, commands)
    requires StartsWith(Tokens(m.content)[0], "/")
    requires m.author.None? || m.author.value.bot
    ensures Dispatch(keys, commands, m, env) == []
  {
  }

  /** An invocation runs the first matching command, once, inside the failure boundary. */
  lemma FirstMatchRuns(keys: seq<string>, commands: map<string, Command>, m: Message, env: Env, i: nat)
    requires KeysRegistered(keys, commands)
    requires StartsWith(Tokens(m.content)[0], "/") && m.author.Some? && !m.author.value.bot
    requires MatchesAt(keys, commands, CommandToken(m), i)
    requires forall j :: 0 <= j < i ==> !MatchesAt(keys, commands, CommandToken(m), j)
    ensures Dispatch(keys, commands, m, env) == Guarded(commands[keys[i]], m, env)
    ensures AtMostOnce(Dispatch(keys, commands, m, env), RunGenerator)
    ensures Fallback !in Dispatch(keys, commands, m, env)
  {
    ResolveIsFirstMatch(keys, commands, CommandToken(m), i);
    var c := commands[keys[i]];
    PipelineOrder(c, m, env);
    var run := Pipeline(c, m, env);
    OrderedOnce(run.effects, RunGenerator);
    if run.threw {
      var out := run.effects + [Send(m.channel.id, Text(c.errorMessage))];
      assert forall k :: 0 <= k < |run.effects| ==> out[k] == run.effects[k];
    }
  }

  /** An invocation no key matches goes to the fallback, exactly once. */
  lemma UnknownTokenToFallback(keys: seq<string>, commands: map<string, Command>, m: Message, env: Env)
    requires KeysRegistered(keys, commands)
    requires StartsWith(Tokens(m.content)[0], "/") && m.author.Some? && !m.author.value.bot
    requires forall j :: !MatchesAt(keys, commands, CommandToken(m), j)
    ensures Dispatch(keys, commands, m, env) == [Fallback]
  {
  }

  /** The fallback is reached only on its own: never together with a command run. */
  lemma FallbackAlone(keys: seq<string>, commands: map<string, Command>, m: Message, env: Env)
    requires KeysRegistered(keys, commands)
    ensures Fallback in Dispatch(keys, commands, m, env) ==> Dispatch(keys, commands, m, env) == [Fallback]
  {
    if StartsWith(Tokens(m.content)[0], "/") && m.author.Some? && !m.author.value.bot {
      match Resolve(keys, commands, CommandToken(m))
      case None =>
      case Some(i) =>
        PipelineOrder(commands[keys[i]], m, env);
    }
  }

  /**
   * The token is lower-cased and compared with the key as it is, so a command
   * whose name holds an upper-case letter is only ever reached through an alias.
   */
  lemma UpperCaseNameOnlyByAlias(keys: seq<string>, commands: map<string, Command>, m: Message, i: nat)
    requires KeysRegistered(keys, commands)
    requires StartsWith(Tokens(m.content)[0], "/")
    requires Resolve(keys, commands, CommandToken(m)) == Some(i)
    requires exists k :: 0 <= k < |keys[i]| && IsUpper(keys[i][k])
    ensures HasAlias(commands[keys[i]], CommandToken(m))
  {
    LowerNeverMatchesUpper(Tokens(m.content)[0][1..], keys[i]);
  }

  /** `/editLastSay` itself never reaches the command named `editLastSay` whose only alias is `els`. */
  lemma EditLastSayUnreachableByName(keys: seq<string>, commands: map<string, Command>, m: Message, i: nat)
    requires KeysRegistered(keys, commands)
    requires i < |keys| && keys[i] == "editLastSay" && commands[keys[i]].aliases == Some(["els"])
    requires Tokens(m.content)[0] == "/editLastSay"
    ensures StartsWith(Tokens(m.content)[0], "/")
    ensures Resolve(keys, commands, CommandToken(m)) != Some(i)
  {
    assert "/editLastSay"[..1] == "/";
    assert "/editLastSay"[1..] == "editLastSay";
    assert IsUpper("editLastSay"[4]);
    LowerNeverMatchesUpper("editLastSay", "editLastSay");
    assert CommandToken(m) != "els" by {
      assert |CommandToken(m)| == 11;
    }
  }
}
