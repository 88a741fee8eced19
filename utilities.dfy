/**
 * The utility commands that keep shared state in the bot's temporary store:
 * `leave` with its confirmation list and expiring timer, `say` and `type` with
 * the last-message map their post-generators keep, the typing delay, and the
 * `avatar` link rewrite. Gateway calls become a list of actions; a call whose
 * promise is awaited may fail, which is a parameter.
 */
module Utilities {
  import opened Wrappers
  import opened JsText
  import opened Messages

  /** What a utility command asks of the gateway, in order. */
  datatype Action =
    | Post(channel: string, text: string)
    | Kick(guildId: string, userId: string, reason: string)
    | Schedule(delay: nat)
    | Typing(channel: string)
    | Wait(delay: nat)

  // ----------------------------------------------------------- array helpers

  /** No ID occurs twice. */
  predicate NoDuplicates(s: seq<string>) {
    forall i, j :: 0 <= i < j < |s| ==> s[i] != s[j]
  }

  /** `s.findIndex(i => i === x)`: the first position of `x`, or -1. */
  function FindIndex(s: seq<string>, x: string): (i: int)
    ensures -1 <= i < |s|
    ensures i == -1 <==> x !in s
    ensures i >= 0 ==> s[i] == x && forall j :: 0 <= j < i ==> s[j] != x
  {
    if |s| == 0 then -1
    else if s[0] == x then 0
    else
      var k := FindIndex(s[1..], x);
      if k == -1 then -1 else k + 1
  }

  /**
   * `s.splice(start, 1)` as JavaScript runs it: a negative start counts from
   * the end (and is clamped at 0), a start past the end removes nothing.
   */
  function SpliceOne(s: seq<string>, start: int): (r: seq<string>)
    ensures 0 <= start < |s| ==> r == s[..start] + s[start + 1..]
    ensures start >= |s| ==> r == s
    ensures |s| > 0 && start < |s| ==> |r| == |s| - 1
  {
    var k := if start < 0 then (if |s| + start < 0 then 0 else |s| + start) else start;
    if k < |s| then s[..k] + s[k + 1..] else s
  }

  /** The guards matter: splicing at -1, the index of a missing ID, removes the last entry. */
  lemma SpliceAtMissingDropsLast(s: seq<string>, x: string)
    requires x !in s && |s| > 0
    ensures SpliceOne(s, FindIndex(s, x)) == s[..|s| - 1]
  {
  }

  /** `s.splice(s.findIndex(i => i === x), 1)`: the removal both `leave` paths perform. */
  function RemoveFirst(s: seq<string>, x: string): (r: seq<string>)
    ensures |s| > 0 ==> |r| == |s| - 1
    ensures x in s ==> r == s[..FindIndex(s, x)] + s[FindIndex(s, x) + 1..]
  {
    SpliceOne(s, FindIndex(s, x))
  }

  /**
   * Removing a present ID from a list without duplicates removes exactly
   * that entry: the ID is gone and every other entry stays, in order.
   */
  lemma RemoveFirstExact(s: seq<string>, x: string)
    requires NoDuplicates(s) && x in s
    ensures var r := RemoveFirst(s, x);
      && |r| == |s| - 1
      && x !in r
      && NoDuplicates(r)
      && (forall y :: y != x ==> (y in r <==> y in s))
  {
    var i := FindIndex(s, x);
    var r := RemoveFirst(s, x);
    assert r == s[..i] + s[i + 1..];
    forall j | 0 <= j < |r| ensures r[j] != x {
      if j < i {
        assert r[j] == s[j];
      } else {
        assert r[j] == s[j + 1];
      }
    }
    forall y | y != x && y in s ensures y in r {
      var j :| 0 <= j < |s| && s[j] == y;
      if j < i {
        assert r[j] == y;
      } else {
        assert j != i;
        assert r[j - 1] == y;
      }
    }
  }

  /** Appending an ID that is not yet listed keeps the list free of duplicates. */
  lemma PushKeepsDistinct(s: seq<string>, x: string)
    requires NoDuplicates(s) && x !in s
    ensures NoDuplicates(s + [x])
  {
    var t := s + [x];
    forall i, j | 0 <= i < j < |t| ensures t[i] != t[j] {
      if j < |s| {
        assert t[i] == s[i] && t[j] == s[j];
      } else {
        assert t[i] == s[i];
      }
    }
  }

  // --------------------------------------------------------- leave, as lists

  const LeavePrompt: string :=
    "Are you sure you want to leave the server? You will require an invite link to join back. Type /leave to confirm."
  const LeaveTimedOut: string := "Your leave request has timed out."
  const LeaveManually: string :=
    "You will have to manually leave the server or transfer ownership before leaving."
  const LeaveTimeout: nat := 30000

  /** The list after a `/leave` by the author `id`: listed authors are removed, others appended. */
  function AfterLeave(s: seq<string>, id: string): (r: seq<string>)
    ensures id !in s ==> r == s + [id]
    ensures NoDuplicates(s) ==> NoDuplicates(r) && (id in r <==> id !in s)
  {
    if id in s then
      (if NoDuplicates(s) then RemoveFirstExact(s, id); RemoveFirst(s, id) else RemoveFirst(s, id))
    else
      (if NoDuplicates(s) then PushKeepsDistinct(s, id); s + [id] else s + [id])
  }

  /** The list after the timer of `id` fires: unchanged when `id` is no longer listed. */
  function AfterTimeout(s: seq<string>, id: string): (r: seq<string>)
    ensures id !in s ==> r == s
    ensures NoDuplicates(s) ==> NoDuplicates(r) && id !in r
  {
    if FindIndex(s, id) == -1 then s
    else if NoDuplicates(s) then RemoveFirstExact(s, id); SpliceOne(s, FindIndex(s, id))
    else SpliceOne(s, FindIndex(s, id))
  }

  /** Both steps keep the list free of duplicates. */
  lemma LeaveStepsKeepDistinct(s: seq<string>, id: string)
    requires NoDuplicates(s)
    ensures NoDuplicates(AfterLeave(s, id)) && NoDuplicates(AfterTimeout(s, id))
  {
    if id in s {
      RemoveFirstExact(s, id);
    } else {
      PushKeepsDistinct(s, id);
    }
  }

  /**
   * A first `/leave` lists the author; a confirming `/leave` before the timer
   * removes that entry, and the timer then finds nothing and changes nothing.
   */
  lemma ConfirmThenTimeoutIsSilent(s: seq<string>, id: string)
    requires NoDuplicates(s) && id !in s
    ensures var asked := AfterLeave(s, id);
      var confirmed := AfterLeave(asked, id);
      && id in asked
      && id !in confirmed
      && FindIndex(confirmed, id) == -1
      && AfterTimeout(confirmed, id) == confirmed
  {
    PushKeepsDistinct(s, id);
    RemoveFirstExact(s + [id], id);
  }

  /**
   * When the timer fires first it removes the entry, so the next `/leave`
   * asks again instead of kicking: the entry is removed only once.
   */
  lemma TimeoutThenLeaveAsksAgain(s: seq<string>, id: string)
    requires NoDuplicates(s) && id !in s
    ensures var asked := AfterLeave(s, id);
      var expired := AfterTimeout(asked, id);
      && id !in expired
      && AfterLeave(expired, id) == expired + [id]
  {
    PushKeepsDistinct(s, id);
    RemoveFirstExact(s + [id], id);
  }

  /** A removal by the timer or a confirmation touches no other author's entry. */
  lemma OthersUntouched(s: seq<string>, id: string, other: string)
    requires NoDuplicates(s) && other != id
    ensures other in AfterLeave(s, id) <==> other in s
    ensures other in AfterTimeout(s, id) <==> other in s
  {
    if id in s {
      RemoveFirstExact(s, id);
    }
  }

  // ------------------------------------------------------------- say / type

  /** `channelMentions[0]`, `None` standing for `undefined`. */
  function Head(s: seq<string>): (r: Option<string>)
    ensures r.Some? <==> |s| > 0
    ensures r.Some? ==> r.value == s[0]
  {
    if |s| == 0 then None else Some(s[0])
  }

  const Forbidden: string := "pls adim me"

  /** `if (args.join(' ') === 'pls adim me') args = ['no']`. */
  function Sanitize(args: seq<string>): (r: seq<string>)
    ensures Join(r, " ") != Forbidden
    ensures Join(args, " ") != Forbidden ==> r == args
  {
    assert "no" != Forbidden by {
      assert |"no"| != |Forbidden|;
    }
    if Join(args, " ") == Forbidden then ["no"] else args
  }

  /** The text sent is never the forbidden request, and any other text is kept. */
  lemma SanitizeText(args: seq<string>)
    ensures Join(Sanitize(args), " ") != Forbidden
    ensures Join(args, " ") == Forbidden ==> Join(Sanitize(args), " ") == "no"
    ensures Join(args, " ") != Forbidden ==> Sanitize(args) == args
  {
    assert "no" != Forbidden by {
      assert |"no"| != |Forbidden|;
    }
  }

  /** The typing delay: 120 milliseconds per character, at most eight seconds. */
  function TypingDelay(text: string): (ms: nat)
    ensures ms <= 8000 && ms <= |text| * 120
    ensures ms == 8000 || ms == |text| * 120
  {
    if |text| * 120 > 8000 then 8000 else |text| * 120
  }

  /** The delay stays proportional up to 66 characters and is capped from 67 on. */
  lemma TypingDelayCap(text: string)
    ensures |text| <= 66 ==> TypingDelay(text) == |text| * 120
    ensures |text| >= 67 ==> TypingDelay(text) == 8000
  {
  }

  /** `tempDB.say` after the message `sent` (if there is one) was recorded for its channel. */
  function RecordSay(say: map<string, string>, sent: Option<Sent>): (r: map<string, string>)
    ensures sent.None? ==> r == say
    ensures sent.Some? ==> sent.value.channel in r && r[sent.value.channel] == sent.value.id
    ensures forall k :: sent.None? || k != sent.value.channel ==>
      (k in r <==> k in say) && (k in say ==> r[k] == say[k])
  {
    if sent.Some? then say[sent.value.channel := sent.value.id] else say
  }

  /** The actions `type` adds before it sends: typing in the command's channel, then the delay. */
  function TypingPrefix(typing: bool, origin: string, text: string): seq<Action>
  {
    if typing then [Typing(origin), Wait(TypingDelay(text))] else []
  }

  // ------------------------------------------------------------------ avatar

  /** The user whose avatar `avatar` links: the first mention, otherwise the author. */
  function AvatarUser(author: User, mentions: seq<User>): (u: User)
    ensures |mentions| > 0 ==> u == mentions[0]
    ensures |mentions| == 0 ==> u == author
  {
    if |mentions| != 0 then mentions[0] else author
  }

  /** `'Link: ' + user.avatarURL.split('128').join('') + '2048'`. */
  function AvatarLink(author: User, mentions: seq<User>): (r: string)
    ensures StartsWith(r, "Link: ") && |r| >= 10 && r[|r| - 4..] == "2048"
  {
    "Link: " + ReplaceAll(AvatarUser(author, mentions).avatarURL, "128", "") + "2048"
  }

  /**
   * The link cuts the avatar URL at every `128` the split finds, glues the
   * pieces back without it, and asks for size 2048.
   */
  lemma AvatarLinkShape(author: User, mentions: seq<User>)
    ensures var url := AvatarUser(author, mentions).avatarURL;
      var pieces := SplitOn(url, "128");
      && url == Join(pieces, "128")
      && (forall k :: 0 <= k < |pieces| ==> !Contains(pieces[k], "128"))
      && AvatarLink(author, mentions) == "Link: " + Join(pieces, "") + "2048"
      && |AvatarLink(author, mentions)| == 10 + |url| - 3 * (|pieces| - 1)
  {
    var url := AvatarUser(author, mentions).avatarURL;
    JoinSplit(url, "128");
    SplitPiecesFree(url, "128");
    RemoveAllLength(url, "128");
  }

  /** A URL without `128` is only wrapped. */
  lemma AvatarLinkWithoutSize(author: User, mentions: seq<User>)
    requires !Contains(AvatarUser(author, mentions).avatarURL, "128")
    ensures AvatarLink(author, mentions) == "Link: " + AvatarUser(author, mentions).avatarURL + "2048"
  {
    ReplaceAbsent(AvatarUser(author, mentions).avatarURL, "128", "");
  }

  // ----------------------------------------------------------------- the store

  /** The bot's temporary store: pending `leave` confirmations and the last `say` per channel. */
  class TempDB {
    var leave: seq<string>
    var say: map<string, string>

    ghost predicate Valid()
      reads this
    {
      NoDuplicates(leave)
    }

    constructor()
      ensures leave == [] && say == map[]
      ensures Valid()
    {
      leave := [];
      say := map[];
    }

    /**
     * The generator of `leave`. A first `/leave` posts the prompt, lists the
     * author and starts the 30-second timer. A second one removes the author
     * and requests the kick; without a member record reading the guild throws,
     * and the catch answers with the manual-leave text. A missing author makes
     * the first read throw.
     */
    method Leave(m: Message) returns (actions: seq<Action>, reply: Attempt<Option<string>>)
      requires Valid()
      modifies this
      ensures Valid()
      ensures say == old(say)
      ensures m.author.None? ==> leave == old(leave) && actions == [] && reply == Threw
      ensures m.author.Some? ==> leave == AfterLeave(old(leave), m.author.value.id)
      ensures m.author.Some? && m.author.value.id !in old(leave) ==>
        actions == [Post(m.channel.id, LeavePrompt), Schedule(LeaveTimeout)] && reply == Done(None)
      ensures m.author.Some? && m.author.value.id in old(leave) && m.member.None? ==>
        actions == [] && reply == Done(Some(LeaveManually))
      ensures m.author.Some? && m.author.value.id in old(leave) && m.member.Some? ==>
        && actions == [Kick(m.member.value.guildId, m.author.value.id, "Used /leave.")]
        && reply == Done(Some(m.author.value.username + "#" + m.author.value.discriminator + " has left the server."))
    {
      if m.author.None? {
        return [], Threw;
      }
      var author := m.author.value;
      LeaveStepsKeepDistinct(leave, author.id);
      if author.id !in leave {
        actions := [Post(m.channel.id, LeavePrompt)];
        leave := leave + [author.id];
        actions := actions + [Schedule(LeaveTimeout)];
        return actions, Done(None);
      }
      leave := SpliceOne(leave, FindIndex(leave, author.id));
      if m.member.None? {
        return [], Done(Some(LeaveManually));
      }
      actions := [Kick(m.member.value.guildId, author.id, "Used /leave.")];
      reply := Done(Some(author.username + "#" + author.discriminator + " has left the server."));
    }

    /** The timer `leave` starts, firing for the author `id` in the channel `channel`. */
    method LeaveTimerFires(id: string, channel: string) returns (actions: seq<Action>)
      requires Valid()
      modifies this
      ensures Valid()
      ensures say == old(say)
      ensures leave == AfterTimeout(old(leave), id)
      ensures id !in old(leave) ==> actions == [] && leave == old(leave)
      ensures id in old(leave) ==> actions == [Post(channel, LeaveTimedOut)] && id !in leave
    {
      LeaveStepsKeepDistinct(leave, id);
      if FindIndex(leave, id) == -1 {
        return [];
      }
      RemoveFirstExact(leave, id);
      actions := [Post(channel, LeaveTimedOut)];
      leave := SpliceOne(leave, FindIndex(leave, id));
    }

    /**
     * The generator of `say` (and of `type` when `typing` holds). When the
     * first channel mention equals `possibleChannel` (the channel the first
     * argument names), the mention is dropped, the rest is posted there and the
     * new message's id `newId` recorded; nothing is returned. Otherwise the
     * text is returned for the dispatcher to send. Posting to an undefined
     * channel, or a post that fails (`postFails`), makes the awaited call throw.
     */
    method SayOrType(m: Message, args: seq<string>, possibleChannel: Option<string>, typing: bool,
                     postFails: bool, newId: string)
      returns (actions: seq<Action>, reply: Attempt<Option<string>>)
      modifies this
      ensures leave == old(leave)
      ensures Head(m.channelMentions) == possibleChannel ==>
        var text := Join(Sanitize(if |args| == 0 then [] else args[1..]), " ");
        && (possibleChannel.None? || postFails ==>
              actions == TypingPrefix(typing, m.channel.id, text) && reply == Threw && say == old(say))
        && (possibleChannel.Some? && !postFails ==>
              && actions == TypingPrefix(typing, m.channel.id, text) + [Post(possibleChannel.value, text)]
              && reply == Done(None)
              && say == RecordSay(old(say), Some(Sent(newId, possibleChannel.value))))
      ensures Head(m.channelMentions) != possibleChannel ==>
        var text := Join(Sanitize(args), " ");
        && actions == TypingPrefix(typing, m.channel.id, text)
        && reply == Done(Some(text))
        && say == old(say)
    {
      var rest := args;
      if Head(m.channelMentions) == possibleChannel {
        rest := if |rest| == 0 then [] else rest[1..];
        rest := Sanitize(rest);
        var text := Join(rest, " ");
        actions := TypingPrefix(typing, m.channel.id, text);
        if possibleChannel.None? || postFails {
          return actions, Threw;
        }
        actions := actions + [Post(possibleChannel.value, text)];
        say := say[possibleChannel.value := newId];
        return actions, Done(None);
      }
      rest := Sanitize(rest);
      var text := Join(rest, " ");
      actions := TypingPrefix(typing, m.channel.id, text);
      reply := Done(Some(text));
    }

    /** The post-generator of `say` and `type`: record the sent message for its channel. */
    method SayPost(sent: Option<Sent>)
      modifies this
      ensures leave == old(leave)
      ensures say == RecordSay(old(say), sent)
    {
      if sent.Some? {
        say := say[sent.value.channel := sent.value.id];
      }
    }
  }
}
