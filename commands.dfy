/**
 * A registered command: its definition as the command files write it, the
 * record the `Command` constructor builds from it (with its defaults), the
 * requirement check, and `execute`, which picks between a generator function
 * and a fixed value.
 */
module Commands {
  import opened Wrappers
  import opened JsObject
  import opened Messages

  /** A response: text or a rich embed. An empty text is falsy in JavaScript. */
  datatype Content = Text(text: string) | Embed(title: string)

  /** JavaScript truthiness of a generator result (`undefined` is `None`). */
  predicate Truthy(r: Option<Content>) {
    r.Some? && (r.value.Text? ==> r.value.text != "")
  }

  /** A generator is either a function of the message and arguments, or a fixed value. */
  datatype Generator =
    | Static(response: Option<Content>)
    | Deferred(run: (Message, seq<string>) -> Attempt<Option<Content>>)

  /** A post-generator: receives the message, the arguments and the sent message, if any. */
  type PostHook = (Message, seq<string>, Option<Sent>) -> Attempt<()>

  /**
   * The `requirements` object. Role names and role IDs are declared but never
   * read by the check.
   */
  datatype Requirements = Requirements(
    userIDs: Option<seq<string>>,
    roleNames: Option<seq<string>>,
    custom: Option<Message -> Attempt<bool>>,
    permissions: Option<Props>,
    roleIDs: Option<seq<string>>)

  /** The `opts` of a definition; every field may be left undefined. */
  datatype Options = Options(
    argsRequired: Option<bool>,
    invalidUsageMessage: Option<string>,
    errorMessage: Option<string>,
    caseInsensitive: Option<bool>,
    deleteCommand: Option<bool>,
    guildOnly: Option<bool>,
    dmOnly: Option<bool>,
    requirements: Option<Requirements>)

  /** A command as a command file defines it. */
  datatype Definition = Definition(
    name: string,
    aliases: Option<seq<string>>,
    generator: Generator,
    postGenerator: Option<PostHook>,
    opts: Options)

  /** A command as the parser stores it, after the constructor filled in defaults. */
  datatype Command = Command(
    name: string,
    aliases: Option<seq<string>>,
    generator: Generator,
    postGenerator: Option<PostHook>,
    argsRequired: bool,
    invalidUsageMessage: string,
    errorMessage: string,
    caseInsensitive: bool,
    deleteCommand: bool,
    guildOnly: bool,
    dmOnly: bool,
    requirements: Option<Requirements>)

  const DefaultInvalidUsage: string := "Invalid usage."
  const DefaultError: string := "IveBot has experienced an internal error."

  /** `a || b` for strings: an undefined or empty string falls back to `b`. */
  function OrDefault(a: Option<string>, b: string): string {
    if a.Some? && a.value != "" then a.value else b
  }

  /** The `Command` constructor. */
  function MakeCommand(d: Definition): (c: Command)
    ensures c.name == d.name && c.aliases == d.aliases
    ensures c.generator == d.generator && c.postGenerator == d.postGenerator
    ensures c.requirements == d.opts.requirements
    // arguments are required unless the definition says false
    ensures c.argsRequired <==> d.opts.argsRequired != Some(false)
    // the two messages are never empty, and a non-empty configured one is kept
    ensures c.invalidUsageMessage != "" && c.errorMessage != ""
    ensures d.opts.invalidUsageMessage.Some? && d.opts.invalidUsageMessage.value != ""
      ==> c.invalidUsageMessage == d.opts.invalidUsageMessage.value
    ensures d.opts.invalidUsageMessage.None? || d.opts.invalidUsageMessage == Some("")
      ==> c.invalidUsageMessage == DefaultInvalidUsage
    ensures d.opts.errorMessage.Some? && d.opts.errorMessage.value != ""
      ==> c.errorMessage == d.opts.errorMessage.value
    ensures d.opts.errorMessage.None? || d.opts.errorMessage == Some("")
      ==> c.errorMessage == DefaultError
    // undefined flags are falsy
    ensures c.deleteCommand <==> d.opts.deleteCommand == Some(true)
    ensures c.guildOnly <==> d.opts.guildOnly == Some(true)
    ensures c.dmOnly <==> d.opts.dmOnly == Some(true)
  {
    Command(
      d.name,
      d.aliases,
      d.generator,
      d.postGenerator,
      d.opts.argsRequired.None? || d.opts.argsRequired.value,
      OrDefault(d.opts.invalidUsageMessage, DefaultInvalidUsage),
      OrDefault(d.opts.errorMessage, DefaultError),
      d.opts.caseInsensitive.None? || d.opts.caseInsensitive.value,
      d.opts.deleteCommand == Some(true),
      d.opts.guildOnly == Some(true),
      d.opts.dmOnly == Some(true),
      d.opts.requirements)
  }

  /** `aliases && aliases.includes(token)`. */
  predicate HasAlias(c: Command, token: string) {
    c.aliases.Some? && token in c.aliases.value
  }

  /** The allow-list part of a requirement: false when the list is undefined. */
  predicate ByUserId(req: Requirements, author: User) {
    req.userIDs.Some? && author.id in req.userIDs.value
  }

  /** The custom part of a requirement: false when no predicate is given. */
  predicate ByCustom(req: Requirements, m: Message) {
    req.custom.Some? && req.custom.value(m) == Done(true)
  }

  /** The custom predicate is given and throws when called on the message. */
  predicate CustomThrows(req: Requirements, m: Message) {
    req.custom.Some? && req.custom.value(m).Threw?
  }

  /**
   * `requirementsCheck`. Reading the author's id without an author, or the
   * member's permissions without a member, throws.
   */
  function RequirementsCheck(c: Command, m: Message): (r: Attempt<bool>)
    ensures c.requirements.None? ==> r == Done(true)
    ensures r.Threw? <==>
      && c.requirements.Some?
      && ((c.requirements.value.userIDs.Some? && m.author.None?) ||
          CustomThrows(c.requirements.value, m) ||
          (m.channel.kind == GuildText && c.requirements.value.permissions.Some? && m.member.None?))
  {
    match c.requirements
    case None => Done(true)
    case Some(req) =>
      if req.userIDs.Some? && m.author.None? then Threw
      else if CustomThrows(req, m) then Threw
      else
        var byId := req.userIDs.Some? && ByUserId(req, m.author.value);
        var byCustom := ByCustom(req, m);
        if m.channel.kind != GuildText then Done(byId || byCustom)
        else if req.permissions.Some? && m.member.None? then Threw
        else
          var byPermission := req.permissions.Some? &&
            var granted := m.member.value.permission;
            Equivalent(Assign(granted, req.permissions.value), granted);
          Done(byId || byCustom || byPermission)
  }

  /** A command without a requirements object passes for every message and author. */
  lemma NoRequirementsPass(c: Command, m: Message)
    requires c.requirements.None?
    ensures RequirementsCheck(c, m) == Done(true)
  {
  }

  /** Outside a guild channel the verdict is allow-list membership or the custom check. */
  lemma OutsideGuildVerdict(c: Command, m: Message)
    requires c.requirements.Some? && m.author.Some?
    requires !CustomThrows(c.requirements.value, m)
    requires m.channel.kind != GuildText
    ensures RequirementsCheck(c, m) ==
      Done(ByUserId(c.requirements.value, m.author.value) || ByCustom(c.requirements.value, m))
  {
  }

  /** A permissions-only command is always denied outside a guild channel. */
  lemma PermissionsOnlyDeniedOutsideGuild(c: Command, m: Message)
    requires c.requirements.Some?
    requires c.requirements.value.userIDs.None? && c.requirements.value.custom.None?
    requires m.channel.kind != GuildText
    ensures RequirementsCheck(c, m) == Done(false)
  {
  }

  /**
   * In a guild channel the permission part passes exactly when the member
   * already holds every required permission with the required value.
   */
  lemma GuildVerdict(c: Command, m: Message)
    requires c.requirements.Some? && m.author.Some? && m.member.Some?
    requires !CustomThrows(c.requirements.value, m)
    requires m.channel.kind == GuildText
    requires c.requirements.value.permissions.Some? ==> WellFormed(c.requirements.value.permissions.value)
    ensures var req := c.requirements.value;
      RequirementsCheck(c, m) == Done(
        ByUserId(req, m.author.value) || ByCustom(req, m) ||
        (req.permissions.Some? && Covers(m.member.value.permission, req.permissions.value)))
  {
    var req := c.requirements.value;
    if req.permissions.Some? {
      PermissionMatch(m.member.value.permission, req.permissions.value);
    }
  }

  /**
   * The custom predicate is called whatever the allow-list says and in every
   * kind of channel, so a predicate that throws makes the whole check throw
   * even for an allow-listed author.
   */
  lemma CustomThrowPropagates(c: Command, m: Message)
    requires c.requirements.Some? && CustomThrows(c.requirements.value, m)
    ensures RequirementsCheck(c, m) == Threw
  {
  }

  /** Required permissions with no member to read them from make the check throw, whoever asks. */
  lemma MissingMemberThrows(c: Command, m: Message)
    requires c.requirements.Some? && c.requirements.value.permissions.Some?
    requires m.author.Some? && m.member.None? && m.channel.kind == GuildText
    ensures RequirementsCheck(c, m) == Threw
  {
  }

  /** `execute`: call the generator if it is a function, otherwise hand back the value. */
  function Execute(c: Command, m: Message, args: seq<string>): (r: Attempt<Option<Content>>)
    ensures c.generator.Static? ==> r == Done(c.generator.response)
    ensures c.generator.Deferred? ==> r == c.generator.run(m, args)
  {
    match c.generator
    case Static(v) => Done(v)
    case Deferred(f) => f(m, args)
  }
}
