/**
 `send_logger`: mirrors a "now playing" event into the configured logging
 channel. The messaging client is modelled as a sink that records every
 message handed to it; the logging channel comes from an injected `Config`.
 */
module Notifier {
  import opened Wrappers
  import opened Decimal
  import opened TimeFormat

  /** The fields of a cached track that the notification shows. */
  datatype Track = Track(url: string, name: string, duration: Seconds, user: string, platform: string)

  /** `config.LOGGER_ID`; 0 means logging is switched off. */
  datatype Config = Config(loggerId: int)

  /** One `sendTextMessage` call as the client receives it. */
  datatype Message = Message(chatId: int, text: string, disableWebPagePreview: bool, disableNotification: bool)

  /** The messaging client: every message it is asked to send, in order. */
  class Client {
    var sent: seq<Message>

    constructor ()
      ensures sent == []
    {
      sent := [];
    }

    method SendTextMessage(chatId: int, text: string, disableWebPagePreview: bool, disableNotification: bool)
      modifies this
      ensures sent == old(sent) + [Message(chatId, text, disableWebPagePreview, disableNotification)]
    {
      sent := sent + [Message(chatId, text, disableWebPagePreview, disableNotification)];
    }
  }

  // The fixed parts of the notification, around the values it shows.
  const Heading := "<b>Song Playing</b> in <code>"
  const BeforeUrl := "</code>\n\n\U{25B6}\U{FE0F} <b>Now Playing:</b> <a href='"
  const BeforeName := "'>"
  const BeforeDuration := "</a>\n\n\U{2022} <b>Duration:</b> "
  const BeforeUser := "\n\U{2022} <b>Requested by:</b> "
  const BeforePlatform := "\n\U{2022} <b>Platform:</b> "

  /** `f"{sec_to_min(d)}"`: the formatted duration, or "None" when the conversion failed. */
  function DurationText(d: Seconds): (t: string)
    ensures t == "None" <==> SecToMin(d).None?
    ensures SecToMin(d).Some? ==> t == SecToMin(d).value && t[|t| - 3] == ':'
  {
    match SecToMin(d)
    case Some(t) => t
    case None => "None"
  }

  /**
   The notification, field by field as the f-string writes it. The `+` chain
   nests to the right so that each field sits next to the literal before it,
   the shape `AppearInOrderAfter` and `NowPlayingNamesChat` take apart.
   */
  function NowPlayingText(chatId: int, song: Track): (t: string)
    ensures |t| == |Heading| + |IntToString(chatId)| + |BeforeUrl| + |song.url| + |BeforeName| + |song.name|
      + |BeforeDuration| + |DurationText(song.duration)| + |BeforeUser| + |song.user| + |BeforePlatform| + |song.platform|
    ensures StartsWith(t, Heading)
    ensures EndsWith(t, song.platform)
  {
    var p := song.platform;
    var r9 := BeforePlatform + p;
    EndsWithAppend(BeforePlatform, p, p);
    var r8 := song.user + r9;
    EndsWithAppend(song.user, r9, p);
    var r7 := BeforeUser + r8;
    EndsWithAppend(BeforeUser, r8, p);
    var r6 := DurationText(song.duration) + r7;
    EndsWithAppend(DurationText(song.duration), r7, p);
    var r5 := BeforeDuration + r6;
    EndsWithAppend(BeforeDuration, r6, p);
    var r4 := song.name + r5;
    EndsWithAppend(song.name, r5, p);
    var r3 := BeforeName + r4;
    EndsWithAppend(BeforeName, r4, p);
    var r2 := song.url + r3;
    EndsWithAppend(song.url, r3, p);
    var r1 := BeforeUrl + r2;
    EndsWithAppend(BeforeUrl, r2, p);
    var r0 := IntToString(chatId) + r1;
    EndsWithAppend(IntToString(chatId), r1, p);
    EndsWithAppend(Heading, r0, p);
    StartsWithAppend(Heading, r0);
    Heading + r0
  }

  /** `s` begins with `u`. */
  predicate StartsWith(s: string, u: string) {
    |u| <= |s| && s[..|u|] == u
  }

  /** `s` ends with `v`. */
  predicate EndsWith(s: string, v: string) {
    |v| <= |s| && s[|s| - |v|..] == v
  }

  lemma StartsWithAppend(a: string, b: string)
    ensures StartsWith(a + b, a)
  {
    assert (a + b)[..|a|] == a;
  }

  lemma EndsWithAppend(a: string, b: string, v: string)
    requires EndsWith(b, v)
    ensures EndsWith(a + b, v)
  {
    assert (a + b)[|a + b| - |v|..] == b[|b| - |v|..];
  }

  /**
   The message `send_logger` hands to the client, if any. It is sent only for
   a present, non-zero chat that is not the logging channel itself, with a
   track, while logging is on; it always goes to the logging channel, never
   to the chat that is playing, and never to the "disabled" id 0.
   */
  function LogMessage(cfg: Config, chatId: Option<int>, song: Option<Track>): (m: Option<Message>)
    ensures m.Some? <==>
      chatId.Some? && chatId.value != 0 && song.Some? && chatId.value != cfg.loggerId && cfg.loggerId != 0
    ensures m.Some? ==> m.value.chatId == cfg.loggerId != 0 && m.value.chatId != chatId.value
    ensures m.Some? ==> m.value.disableWebPagePreview && m.value.disableNotification
    ensures m.Some? ==> m.value.text == NowPlayingText(chatId.value, song.value)
  {
    if chatId.None? || chatId.value == 0 || song.None? || chatId.value == cfg.loggerId || cfg.loggerId == 0 then
      None
    else
      Some(Message(cfg.loggerId, NowPlayingText(chatId.value, song.value), true, true))
  }

  /** Every message went to the logging channel, silently and without a preview. */
  ghost predicate OnlyToLogger(sent: seq<Message>, cfg: Config) {
    forall i :: 0 <= i < |sent| ==>
      sent[i].chatId == cfg.loggerId != 0 && sent[i].disableWebPagePreview && sent[i].disableNotification
  }

  method SendLogger(client: Client, cfg: Config, chatId: Option<int>, song: Option<Track>)
    modifies client
    ensures client.sent == old(client.sent) + (if LogMessage(cfg, chatId, song).Some? then [LogMessage(cfg, chatId, song).value] else [])
    ensures |client.sent| <= |old(client.sent)| + 1
    ensures OnlyToLogger(old(client.sent), cfg) ==> OnlyToLogger(client.sent, cfg)
  {
    if chatId.None? || chatId.value == 0 || song.None? || chatId.value == cfg.loggerId || cfg.loggerId == 0 {
      return;
    }
    var text := NowPlayingText(chatId.value, song.value);
    client.SendTextMessage(cfg.loggerId, text, true, true);
  }

  /** `piece` occurs in `text` starting at index `i`. */
  predicate OccursAt(text: string, piece: string, i: int) {
    0 <= i <= |text| - |piece| && text[i..i + |piece|] == piece
  }

  /**
   The pieces appear in `text` one after another, each starting after the
   previous one ends.
   */
  ghost predicate AppearInOrder(text: string, pieces: seq<string>)
    decreases |pieces|
  {
    pieces == [] ||
    exists i :: OccursAt(text, pieces[0], i) && AppearInOrder(text[i + |pieces[0]|..], pieces[1..])
  }

  lemma AppearInOrderLast(gap: string, piece: string)
    ensures AppearInOrder(gap + piece, [piece])
  {
    var text, pieces := gap + piece, [piece];
    assert pieces[1..] == [];
    assert OccursAt(text, pieces[0], |gap|) && AppearInOrder(text[|gap| + |pieces[0]|..], pieces[1..]);
  }

  lemma AppearInOrderAfter(gap: string, rest: string, pieces: seq<string>)
    requires |pieces| >= 1 && AppearInOrder(rest, pieces[1..])
    ensures AppearInOrder(gap + (pieces[0] + rest), pieces)
  {
    var text, i := gap + (pieces[0] + rest), |gap|;
    assert OccursAt(text, pieces[0], i);
    assert text[i + |pieces[0]|..] == rest;
  }

  /** The notification names the chat, the link, the title, the duration, the requester and the platform, in that order. */
  lemma NowPlayingMentionsTrack(chatId: int, song: Track)
    ensures AppearInOrder(NowPlayingText(chatId, song),
      [IntToString(chatId), song.url, song.name, DurationText(song.duration), song.user, song.platform])
  {
    var duration := DurationText(song.duration);
    var p5 := [song.platform];
    var p4 := [song.user] + p5;
    var p3 := [duration] + p4;
    var p2 := [song.name] + p3;
    var p1 := [song.url] + p2;
    var p0 := [IntToString(chatId)] + p1;
    var r5 := BeforePlatform + song.platform;
    AppearInOrderLast(BeforePlatform, song.platform);
    var r4 := BeforeUser + (song.user + r5);
    AppearInOrderAfter(BeforeUser, r5, p4);
    var r3 := BeforeDuration + (duration + r4);
    AppearInOrderAfter(BeforeDuration, r4, p3);
    var r2 := BeforeName + (song.name + r3);
    AppearInOrderAfter(BeforeName, r3, p2);
    var r1 := BeforeUrl + (song.url + r2);
    AppearInOrderAfter(BeforeUrl, r2, p1);
    AppearInOrderAfter(Heading, r1, p0);
    assert NowPlayingText(chatId, song) == Heading + (IntToString(chatId) + r1);
    assert p0 == [IntToString(chatId), song.url, song.name, duration, song.user, song.platform];
  }

  /** Index of the first `c` in `s`, or `|s|` when there is none. */
  function IndexOf(s: string, c: char): (k: nat)
    ensures k <= |s| && c !in s[..k]
    ensures k < |s| ==> s[k] == c
  {
    if s == [] || s[0] == c then 0 else 1 + IndexOf(s[1..], c)
  }

  /** Reads the chat id back out of a notification: the text between the heading and the next tag. */
  function NotifiedChat(text: string): Option<int> {
    if |text| < |Heading| || text[..|Heading|] != Heading then None
    else
      var rest := text[|Heading|..];
      ParseInt(rest[..IndexOf(rest, '<')])
  }

  lemma {:induction false} IndexOfAfter(a: string, b: string, c: char)
    requires c !in a
    ensures IndexOf(a + b, c) == |a| + IndexOf(b, c)
    decreases |a|
  {
    if a != [] {
      assert a[0] in a && forall x :: x in a[1..] ==> x in a;
      assert (a + b)[0] == a[0] && (a + b)[1..] == a[1..] + b;
      IndexOfAfter(a[1..], b, c);
    } else {
      assert a + b == b;
    }
  }

  /** The chat the notification is about can be recovered from its text. */
  lemma NowPlayingNamesChat(chatId: int, song: Track)
    ensures NotifiedChat(NowPlayingText(chatId, song)) == Some(chatId)
  {
    var digits := IntToString(chatId);
    var tail := BeforeUrl + (song.url + (BeforeName + (song.name + (BeforeDuration
      + (DurationText(song.duration) + (BeforeUser + (song.user + (BeforePlatform + song.platform))))))));
    var text := NowPlayingText(chatId, song);
    assert text == Heading + (digits + tail);
    assert text[..|Heading|] == Heading;
    assert text[|Heading|..] == digits + tail;
    if '<' in digits {
      IntToStringAlphabet(chatId, '<');
      assert false;
    }
    IndexOfAfter(digits, tail, '<');
    assert tail[0] == BeforeUrl[0] == '<';
    assert (digits + tail)[..|digits|] == digits;
    IntToStringRoundTrip(chatId);
  }
}
