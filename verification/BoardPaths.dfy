/**
 * The board's own path shape, `board/{channel}/{id}.md`, and what it means for delivery: the id
 * alone does not name a path.
 */
module BoardPaths {
  import opened Common
  import opened BoardDelivery
  import opened BoardSafety
  import RecordReading

  predicate LowerOrDigit(c: char) {
    'a' <= c <= 'z' || '0' <= c <= '9'
  }

  predicate ChannelName(s: string) {
    1 <= |s| <= 64 && LowerOrDigit(s[0]) && forall c :: c in s ==> LowerOrDigit(c) || c == '-'
  }

  predicate MessageId(s: string) {
    16 <= |s| <= 64 && forall c :: c in s ==> 'a' <= c <= 'f' || '0' <= c <= '9'
  }

  function MessagePath(channel: string, id: string): string {
    "board/" + channel + "/" + id + ".md"
  }

  function Slash(s: string, from: nat): (r: Option<nat>)
    ensures r.Some? ==> from <= r.value < |s| && s[r.value] == '/' && forall k :: from <= k < r.value ==> s[k] != '/'
    ensures r.None? ==> forall k :: from <= k < |s| ==> s[k] != '/'
    decreases |s| - from
  {
    if from >= |s| then None else if s[from] == '/' then Some(from) else Slash(s, from + 1)
  }

  /** A `..` between two slashes, or between a slash and an end. */
  predicate StepsUp(rest: string) {
    exists i :: 0 <= i < |rest| && StepsUpAt(rest, i)
  }

  predicate StepsUpAt(rest: string, i: nat) {
    && i + 2 <= |rest| && rest[i] == '.' && rest[i + 1] == '.'
    && (i == 0 || rest[i - 1] == '/') && (i + 2 == |rest| || rest[i + 2] == '/')
  }

  /** Behind `board/`: the text up to the next slash, and the text behind it. */
  function Parts(path: string): Option<(string, string)> {
    if |path| < 6 || path[..6] != "board/" then None
    else
      match Slash(path, 6)
      case None => None
      case Some(k) => Some((path[6..k], path[k + 1..]))
  }

  function ChannelOf(path: string): Option<string> {
    match Parts(path)
    case None => None
    case Some((channel, rest)) => if ChannelName(channel) && !StepsUp(rest) then Some(channel) else None
  }

  function IdOf(path: string): Option<string> {
    match Parts(path)
    case None => None
    case Some((channel, rest)) =>
      if ChannelName(channel) && |rest| > 3 && rest[|rest| - 3..] == ".md" && MessageId(rest[..|rest| - 3])
      then Some(rest[..|rest| - 3]) else None
  }

  const BoardNames: Names := Names(ChannelOf, IdOf)

  lemma PartsOf(channel: string, id: string)
    requires ChannelName(channel)
    ensures Parts(MessagePath(channel, id)) == Some((channel, id + ".md"))
  {
    var path := MessagePath(channel, id);
    var k := 6 + |channel|;
    assert path[..6] == "board/" && path[6..k] == channel && path[k] == '/' && path[k + 1..] == id + ".md";
    forall j | 6 <= j < k ensures path[j] != '/' {
      assert path[j] == channel[j - 6] && channel[j - 6] in channel;
    }
  }

  lemma FileStaysPut(id: string)
    requires MessageId(id)
    ensures !StepsUp(id + ".md")
  {
    var rest := id + ".md";
    forall i | 0 <= i < |rest| ensures !StepsUpAt(rest, i) {
      if i < |id| {
        assert rest[i] == id[i] && id[i] in id;
      }
    }
  }

  /** A path is a board path of a channel and an id exactly when it is the path those are written to. */
  lemma BoardPathIff(path: string, channel: string, id: string)
    ensures (ChannelOf(path) == Some(channel) && IdOf(path) == Some(id))
            <==> (ChannelName(channel) && MessageId(id) && path == MessagePath(channel, id))
  {
    if ChannelName(channel) && MessageId(id) && path == MessagePath(channel, id) {
      PartsOf(channel, id);
      FileStaysPut(id);
      var rest := id + ".md";
      assert rest[..|rest| - 3] == id && rest[|rest| - 3..] == ".md";
    }
    if ChannelOf(path) == Some(channel) && IdOf(path) == Some(id) {
      var (name, rest) := Parts(path).value;
      var k := Slash(path, 6).value;
      assert path == path[..6] + path[6..k] + [path[k]] + path[k + 1..];
      assert rest == rest[..|rest| - 3] + rest[|rest| - 3..];
      assert "board/" + channel + "/" + (id + ".md") == MessagePath(channel, id);
    }
  }

  // ---- what is recognised, said of the text alone ---------------------------------------------------

  const HEX: string := "0123456789abcdef"

  lemma HexIff(c: char)
    ensures 'a' <= c <= 'f' || '0' <= c <= '9' <==> c in HEX
  {
    if '0' <= c <= '9' { assert HEX[c as int - '0' as int] == c; }
    if 'a' <= c <= 'f' { assert HEX[10 + (c as int - 'a' as int)] == c; }
  }

  /** One to sixty-four lower-case letters, digits and dashes, no dash first. */
  lemma ChannelNameIff(s: string)
    ensures ChannelName(s) <==> 1 <= |s| <= 64 && RecordReading.Lower(s[0]) && forall c :: c in s ==> RecordReading.Lower(c) || c == '-'
  {
  }

  /** Sixteen to sixty-four lower-case hex digits. */
  lemma MessageIdIff(s: string)
    ensures MessageId(s) <==> 16 <= |s| <= 64 && forall c :: c in s ==> c in HEX
  {
    forall c: char ensures 'a' <= c <= 'f' || '0' <= c <= '9' <==> c in HEX { HexIff(c); }
  }

  /** Some piece of the path between slashes is `..`. */
  ghost predicate HasDotDot(rest: string) {
    exists a, b :: DotDotBetween(rest, a, b)
  }

  ghost predicate DotDotBetween(rest: string, a: string, b: string) {
    && rest == a + ".." + b
    && (a == "" || a[|a| - 1] == '/') && (b == "" || b[0] == '/')
  }

  lemma StepsUpIff(rest: string)
    ensures StepsUp(rest) <==> HasDotDot(rest)
  {
    if StepsUp(rest) {
      var i :| 0 <= i < |rest| && StepsUpAt(rest, i);
      assert rest == rest[..i] + ".." + rest[i + 2..];
      assert DotDotBetween(rest, rest[..i], rest[i + 2..]);
    }
    if a, b :| DotDotBetween(rest, a, b) {
      assert rest[|a|..] == ".." + b && rest[..|a|] == a;
      assert StepsUpAt(rest, |a|);
    }
  }

  lemma PartsIff(path: string, channel: string, rest: string)
    requires forall c :: c in channel ==> c != '/'
    ensures Parts(path) == Some((channel, rest)) <==> path == "board/" + channel + "/" + rest
  {
    if path == "board/" + channel + "/" + rest {
      var k := 6 + |channel|;
      assert path[..6] == "board/" && path[6..k] == channel && path[k] == '/' && path[k + 1..] == rest;
      forall j | 6 <= j < k ensures path[j] != '/' {
        assert path[j] == channel[j - 6] && channel[j - 6] in channel;
      }
    }
    if Parts(path) == Some((channel, rest)) {
      var k := Slash(path, 6).value;
      assert path == path[..6] + path[6..k] + [path[k]] + path[k + 1..];
    }
  }

  /** A path lies in a channel exactly when it is below the channel's directory and no piece of it steps up. */
  lemma ChannelOfIff(path: string, channel: string)
    ensures ChannelOf(path) == Some(channel) <==>
              ChannelName(channel) && exists rest :: path == "board/" + channel + "/" + rest && !HasDotDot(rest)
  {
    hide Parts, StepsUp, HasDotDot;
    if ChannelName(channel) {
      NameHasNoSlash(channel);
      forall rest: string ensures (Parts(path) == Some((channel, rest)) <==> path == "board/" + channel + "/" + rest)
                                  && (StepsUp(rest) <==> HasDotDot(rest)) {
        PartsIff(path, channel, rest);
        StepsUpIff(rest);
      }
    }
    hide ChannelName;
  }

  /** It has a message id exactly when it is some channel's path of that id. */
  lemma IdOfIff(path: string, id: string)
    ensures IdOf(path) == Some(id) <==> MessageId(id) && exists channel :: ChannelName(channel) && path == MessagePath(channel, id)
  {
    if IdOf(path) == Some(id) {
      var (channel, rest) := Parts(path).value;
      NameHasNoSlash(channel);
      PartsIff(path, channel, rest);
      assert rest == id + ".md";
      assert path == MessagePath(channel, id);
    }
    if channel :| MessageId(id) && ChannelName(channel) && path == MessagePath(channel, id) {
      BoardPathIff(path, channel, id);
    }
  }

  lemma NameHasNoSlash(channel: string)
    requires ChannelName(channel)
    ensures forall c :: c in channel ==> c != '/'
  {
  }

  // ---- one id in two channels ------------------------------------------------------------------------

  /**
   * Any message id in any two channels: a clean cycle moves the stored cursor past both messages and
   * hands over or skips only the first.
   */
  lemma SameIdInTwoChannels(cfg: Config, channel: string, other: string, id: string) returns (events: seq<Event>)
    requires cfg.names == BoardNames && cfg.maxPages > 0 && cfg.backlogPauseAt > 0
    requires ChannelName(channel) && ChannelName(other) && channel != other && MessageId(id)
    ensures HonestRun(cfg, Init, events)
    ensures var s := Run(cfg, Init, events);
            && s.log == [MessagePath(channel, id), MessagePath(other, id)]
            && s.files.disk.lastSeq == Some(2) && MessagePath(other, id) !in s.handled
  {
    hide Run, HonestRun;
    BoardPathIff(MessagePath(channel, id), channel, id);
    BoardPathIff(MessagePath(other, id), other, id);
    BoardPathIff(MessagePath(channel, id), other, id);
    events := TwinPathIsPassedUnhandled(cfg, MessagePath(channel, id), MessagePath(other, id));
  }
}
