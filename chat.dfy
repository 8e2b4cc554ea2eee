/**
 * The chat panel (chat.ts): HTML escaping of player messages, the routing
 * of what the player types (`/seed`, `/debug`, offline echo, send), and the
 * open/closed flag of the input box.  The message list is the sequence of
 * HTML strings appended to it, and the socket is the sequence of texts
 * handed to the network layer.
 */
module Chat {
  import opened Wrappers

  // ---------------------------------------------------------------------
  // Escaping
  // ---------------------------------------------------------------------

  /** `s.replace(/c/g, rep)`: every occurrence of `c` becomes `rep`. */
  function ReplaceAll(s: string, c: char, rep: string): string
    decreases |s|
  {
    if s == [] then [] else (if s[0] == c then rep else [s[0]]) + ReplaceAll(s[1..], c, rep)
  }

  /** The escaping of chat.ts:17-18, as written: `<` first, then `>`. */
  function Escape(s: string): string
  {
    ReplaceAll(ReplaceAll(s, '<', "&lt;"), '>', "&gt;")
  }

  /** A reference escaping that rewrites each character on its own. */
  function EscapeChar(c: char): string
  {
    if c == '<' then "&lt;" else if c == '>' then "&gt;" else [c]
  }

  function EscapeEach(s: string): string
    decreases |s|
  {
    if s == [] then [] else EscapeChar(s[0]) + EscapeEach(s[1..])
  }

  /** Number of raw angle brackets in a string. */
  function Brackets(s: string): nat
  {
    multiset(s)['<'] + multiset(s)['>']
  }

  predicate NoBrackets(s: string)
  {
    forall i :: 0 <= i < |s| ==> s[i] != '<' && s[i] != '>'
  }

  predicate Lacks(s: string, c: char)
  {
    forall i :: 0 <= i < |s| ==> s[i] != c
  }

  lemma NoBracketsCount(s: string)
    ensures NoBrackets(s) <==> Brackets(s) == 0
  {
    if NoBrackets(s) {
      assert '<' !in multiset(s);
      assert '>' !in multiset(s);
    } else {
      var i :| 0 <= i < |s| && (s[i] == '<' || s[i] == '>');
      assert s[i] in multiset(s);
    }
  }

  /** Replacing a character that does not occur changes nothing. */
  lemma {:induction false} ReplaceAbsent(s: string, c: char, rep: string)
    requires Lacks(s, c)
    ensures ReplaceAll(s, c, rep) == s
    decreases |s|
  {
    if s != [] {
      ReplaceAbsent(s[1..], c, rep);
      assert [s[0]] + s[1..] == s;
    }
  }

  lemma {:induction false} ReplaceAppend(a: string, b: string, c: char, rep: string)
    ensures ReplaceAll(a + b, c, rep) == ReplaceAll(a, c, rep) + ReplaceAll(b, c, rep)
    decreases |a|
  {
    if a == [] {
      assert a + b == b;
    } else {
      assert (a + b)[0] == a[0];
      assert (a + b)[1..] == a[1..] + b;
      ReplaceAppend(a[1..], b, c, rep);
    }
  }

  /** The two passes of chat.ts:17-18 agree with the one-pass reference:
      the `&lt;` the first pass writes holds no `>` for the second. */
  lemma {:induction false} EscapeIsEach(s: string)
    ensures Escape(s) == EscapeEach(s)
    decreases |s|
  {
    if s != [] {
      var first := if s[0] == '<' then "&lt;" else [s[0]];
      assert ReplaceAll(s, '<', "&lt;") == first + ReplaceAll(s[1..], '<', "&lt;");
      ReplaceAppend(first, ReplaceAll(s[1..], '<', "&lt;"), '>', "&gt;");
      if s[0] == '<' {
        ReplaceAbsent("&lt;", '>', "&gt;");
      } else {
        assert ReplaceAll(first, '>', "&gt;") == EscapeChar(s[0]) + ReplaceAll([], '>', "&gt;");
      }
      EscapeIsEach(s[1..]);
    }
  }

  /** Each bracket grows by three characters; everything else is kept. */
  lemma {:induction false} EscapeEachLength(s: string)
    ensures |EscapeEach(s)| == |s| + 3 * Brackets(s)
    decreases |s|
  {
    if s != [] {
      assert s == [s[0]] + s[1..];
      assert multiset(s) == multiset([s[0]]) + multiset(s[1..]);
      EscapeEachLength(s[1..]);
    }
  }

  lemma {:induction false} EscapeEachNoBrackets(s: string)
    ensures NoBrackets(EscapeEach(s))
    decreases |s|
  {
    if s != [] {
      EscapeEachNoBrackets(s[1..]);
      var r := EscapeEach(s);
      var e := EscapeChar(s[0]);
      assert r == e + EscapeEach(s[1..]);
      forall i | 0 <= i < |r|
        ensures r[i] != '<' && r[i] != '>'
      {
        if i >= |e| {
          assert r[i] == EscapeEach(s[1..])[i - |e|];
        }
      }
    }
  }

  /** No raw angle bracket survives the escaping (chat.ts:17-18). */
  lemma EscapeNoBrackets(s: string)
    ensures NoBrackets(Escape(s))
    ensures Brackets(Escape(s)) == 0
  {
    EscapeIsEach(s);
    EscapeEachNoBrackets(s);
    NoBracketsCount(Escape(s));
  }

  /** The escaping leaves a string alone exactly when it holds no bracket. */
  lemma EscapeIdentity(s: string)
    ensures Escape(s) == s <==> NoBrackets(s)
  {
    EscapeIsEach(s);
    EscapeEachLength(s);
    NoBracketsCount(s);
    if NoBrackets(s) {
      ReplaceAbsent(s, '<', "&lt;");
      ReplaceAbsent(s, '>', "&gt;");
    }
  }

  /** Escaping commutes with concatenation. */
  lemma EscapeAppend(a: string, b: string)
    ensures Escape(a + b) == Escape(a) + Escape(b)
  {
    ReplaceAppend(a, b, '<', "&lt;");
    ReplaceAppend(ReplaceAll(a, '<', "&lt;"), ReplaceAll(b, '<', "&lt;"), '>', "&gt;");
  }

  // ---------------------------------------------------------------------
  // What the browser shows
  // ---------------------------------------------------------------------

  /** The text a browser shows for escaped HTML text, for the three
      character references that matter here. */
  function Decode(s: string): string
    decreases |s|
  {
    if |s| >= 4 && s[..4] == "&lt;" then "<" + Decode(s[4..])
    else if |s| >= 4 && s[..4] == "&gt;" then ">" + Decode(s[4..])
    else if |s| >= 5 && s[..5] == "&amp;" then "&" + Decode(s[5..])
    else if s == [] then []
    else [s[0]] + Decode(s[1..])
  }

  lemma DecodeLt(r: string)
    ensures Decode("&lt;" + r) == "<" + Decode(r)
  {
    var x := "&lt;" + r;
    assert x[..4] == "&lt;";
    assert x[4..] == r;
  }

  lemma DecodeGt(r: string)
    ensures Decode("&gt;" + r) == ">" + Decode(r)
  {
    var x := "&gt;" + r;
    assert x[..4] == "&gt;";
    assert x[..4] != "&lt;" by { assert x[1] == 'g'; }
    assert x[4..] == r;
  }

  lemma DecodeAmp(r: string)
    ensures Decode("&amp;" + r) == "&" + Decode(r)
  {
    var x := "&amp;" + r;
    assert x[..5] == "&amp;";
    assert x[..4] != "&lt;" && x[..4] != "&gt;" by { assert x[1] == 'a'; }
    assert x[5..] == r;
  }

  lemma DecodePlain(c: char, r: string)
    requires c != '&'
    ensures Decode([c] + r) == [c] + Decode(r)
  {
    var x := [c] + r;
    assert x[0] == c;
    assert x[1..] == r;
  }

  /** Without an ampersand in it, a message reads back as typed. */
  lemma {:induction false} EscapeDisplays(s: string)
    requires Lacks(s, '&')
    ensures Decode(Escape(s)) == s
    decreases |s|
  {
    EscapeIsEach(s);
    if s != [] {
      var r := EscapeEach(s[1..]);
      EscapeIsEach(s[1..]);
      assert Lacks(s[1..], '&') by {
        forall i | 0 <= i < |s[1..]| ensures s[1..][i] != '&' { assert s[1..][i] == s[i + 1]; }
      }
      EscapeDisplays(s[1..]);
      if s[0] == '<' {
        DecodeLt(r);
      } else if s[0] == '>' {
        DecodeGt(r);
      } else {
        DecodePlain(s[0], r);
      }
      assert [s[0]] + s[1..] == s;
    }
  }

  /** As written the ampersand is not escaped, so a player who types the
      five characters `&lt;` sees the single character `<`. */
  lemma AmpersandDisplaysWrong()
    ensures Escape("&lt;") == "&lt;"
    ensures Decode(Escape("&lt;")) == "<"
    ensures Decode(Escape("&lt;")) != "&lt;"
  {
    var lt: string := "&lt;";
    assert Lacks(lt, '<') && Lacks(lt, '>');
    ReplaceAbsent(lt, '<', "&lt;");
    ReplaceAbsent(lt, '>', "&gt;");
    var e: string := [];
    assert lt + e == lt;
    DecodeLt(e);
    assert Decode(e) == [];
  }

  /** Escaping with `&` taken first, as HTML needs. */
  function EscapeFull(s: string): string
  {
    ReplaceAll(ReplaceAll(ReplaceAll(s, '&', "&amp;"), '<', "&lt;"), '>', "&gt;")
  }

  function EscapeCharFull(c: char): string
  {
    if c == '&' then "&amp;" else EscapeChar(c)
  }

  function EscapeEachFull(s: string): string
    decreases |s|
  {
    if s == [] then [] else EscapeCharFull(s[0]) + EscapeEachFull(s[1..])
  }

  /** The three passes on one character. */
  lemma ReplaceOne(c: char, x: char, rep: string)
    ensures ReplaceAll([c], x, rep) == if c == x then rep else [c]
  {
    var one: string := [c];
    assert one[1..] == [];
    assert ReplaceAll(one, x, rep) == (if c == x then rep else [c]) + ReplaceAll([], x, rep);
  }

  lemma EscapeFullChar(c: char)
    ensures EscapeFull([c]) == EscapeCharFull(c)
  {
    ReplaceOne(c, '&', "&amp;");
    if c == '&' {
      ReplaceAbsent("&amp;", '<', "&lt;");
      ReplaceAbsent("&amp;", '>', "&gt;");
    } else {
      ReplaceOne(c, '<', "&lt;");
      if c == '<' {
        ReplaceAbsent("&lt;", '>', "&gt;");
      } else {
        ReplaceOne(c, '>', "&gt;");
      }
    }
  }

  lemma EscapeFullAppend(a: string, b: string)
    ensures EscapeFull(a + b) == EscapeFull(a) + EscapeFull(b)
  {
    ReplaceAppend(a, b, '&', "&amp;");
    var a1 := ReplaceAll(a, '&', "&amp;");
    var b1 := ReplaceAll(b, '&', "&amp;");
    ReplaceAppend(a1, b1, '<', "&lt;");
    ReplaceAppend(ReplaceAll(a1, '<', "&lt;"), ReplaceAll(b1, '<', "&lt;"), '>', "&gt;");
  }

  lemma {:induction false} EscapeFullIsEach(s: string)
    ensures EscapeFull(s) == EscapeEachFull(s)
    decreases |s|
  {
    if s != [] {
      assert s == [s[0]] + s[1..];
      EscapeFullAppend([s[0]], s[1..]);
      EscapeFullChar(s[0]);
      EscapeFullIsEach(s[1..]);
    }
  }

  /** Every message reads back exactly as typed. */
  lemma {:induction false} EscapeFullDisplays(s: string)
    ensures Decode(EscapeFull(s)) == s
    decreases |s|
  {
    EscapeFullIsEach(s);
    if s != [] {
      var r := EscapeEachFull(s[1..]);
      EscapeFullIsEach(s[1..]);
      EscapeFullDisplays(s[1..]);
      if s[0] == '&' {
        DecodeAmp(r);
      } else if s[0] == '<' {
        DecodeLt(r);
      } else if s[0] == '>' {
        DecodeGt(r);
      } else {
        DecodePlain(s[0], r);
      }
      assert [s[0]] + s[1..] == s;
    }
  }

  /** The corrected escaping still leaves no raw bracket. */
  lemma {:induction false} EscapeFullNoBrackets(s: string)
    ensures NoBrackets(EscapeFull(s))
    decreases |s|
  {
    EscapeFullIsEach(s);
    if s != [] {
      EscapeFullNoBrackets(s[1..]);
      EscapeFullIsEach(s[1..]);
      var r := EscapeEachFull(s);
      var e := EscapeCharFull(s[0]);
      assert r == e + EscapeEachFull(s[1..]);
      forall i | 0 <= i < |r|
        ensures r[i] != '<' && r[i] != '>'
      {
        if i >= |e| {
          assert r[i] == EscapeEachFull(s[1..])[i - |e|];
        }
      }
    }
  }

  // ---------------------------------------------------------------------
  // Message HTML (chat.ts:14-19)
  // ---------------------------------------------------------------------

  const NICK_OPEN_HEAD: string := "<span style=\"color: "
  const NICK_OPEN_TAIL: string := "; font-weight: bold;\">"
  const TEXT_OPEN: string := ":</span> <span style=\"color: #e2e8f0;\">"
  const CLOSE: string := "</span>"
  /** All the fixed markup of a player message, in order. */
  const MARKUP: string := NICK_OPEN_HEAD + NICK_OPEN_TAIL + TEXT_OPEN + CLOSE

  /** The inner HTML of the appended message element. */
  function MessageHtml(nickname: string, text: string, color: string, isSystem: bool): string
  {
    if isSystem then "<span>" + text + CLOSE
    else NICK_OPEN_HEAD + color + NICK_OPEN_TAIL + Escape(nickname) + TEXT_OPEN + Escape(text) + CLOSE
  }

  /** A system message carries its text verbatim, brackets and all. */
  lemma SystemUnescaped(text: string, nickname: string, color: string)
    ensures var h := MessageHtml(nickname, text, color, true);
      |h| == |text| + 13 && h[6..6 + |text|] == text && Brackets(h) == Brackets(text) + 4
  {
    var h := MessageHtml(nickname, text, color, true);
    assert h == "<span>" + text + CLOSE;
    assert multiset(h) == multiset("<span>") + multiset(text) + multiset(CLOSE);
    assert multiset("<span>")['<'] == 1 && multiset("<span>")['>'] == 1;
    assert multiset(CLOSE)['<'] == 1 && multiset(CLOSE)['>'] == 1;
  }

  lemma BracketsAppend(a: string, b: string)
    ensures Brackets(a + b) == Brackets(a) + Brackets(b)
  {
    assert multiset(a + b) == multiset(a) + multiset(b);
  }

  /** Bracket count of a template with two bracket-free holes. */
  lemma BracketsTemplate(p1: string, c: string, p2: string, e1: string, p3: string, e2: string, p4: string)
    requires Brackets(e1) == 0 && Brackets(e2) == 0
    ensures Brackets(p1 + c + p2 + e1 + p3 + e2 + p4) == Brackets(p1 + p2 + p3 + p4) + Brackets(c)
  {
    BracketsAppend(p1, c);
    BracketsAppend(p1 + c, p2);
    BracketsAppend(p1 + c + p2, e1);
    BracketsAppend(p1 + c + p2 + e1, p3);
    BracketsAppend(p1 + c + p2 + e1 + p3, e2);
    BracketsAppend(p1 + c + p2 + e1 + p3 + e2, p4);
    BracketsAppend(p1, p2);
    BracketsAppend(p1 + p2, p3);
    BracketsAppend(p1 + p2 + p3, p4);
  }

  /** In a player message the brackets are those of the fixed markup and the
      colour: nothing the nickname or the text holds adds one. */
  lemma PlayerEscaped(nickname: string, text: string, color: string)
    ensures Brackets(MessageHtml(nickname, text, color, false)) == Brackets(MARKUP) + Brackets(color)
  {
    EscapeNoBrackets(nickname);
    EscapeNoBrackets(text);
    BracketsTemplate(NICK_OPEN_HEAD, color, NICK_OPEN_TAIL, Escape(nickname), TEXT_OPEN, Escape(text), CLOSE);
  }

  // ---------------------------------------------------------------------
  // Routing what the player types (chat.ts:26-38)
  // ---------------------------------------------------------------------

  predicate StartsWith(s: string, prefix: string)
  {
    |prefix| <= |s| && s[..|prefix|] == prefix
  }

  datatype Route = SeedReply | DebugToggle | OfflineEcho | Emit

  function RouteOf(text: string, offline: bool): Route
  {
    if StartsWith(text, "/seed") then SeedReply
    else if StartsWith(text, "/debug") then DebugToggle
    else if offline then OfflineEcho
    else Emit
  }

  /** The reply to `/seed…` (chat.ts:28). */
  function SeedReplyHtml(worldSeed: string): string
  {
    MessageHtml("SYSTEM", "Current Seed: " + worldSeed, "#facc15", true)
  }

  /** The local echo of an offline text (chat.ts:34). */
  function EchoHtml(text: string): string
  {
    MessageHtml("YOU", text, "#fff", false)
  }

  /** The offline notice (chat.ts:35). */
  function OfflineNoticeHtml(): string
  {
    MessageHtml("SYSTEM", "Chat is disabled in offline mode.", "#ef4444", true)
  }

  /** The HTML appended to the message list for one send. */
  function Shown(text: string, worldSeed: string, offline: bool): seq<string>
  {
    match RouteOf(text, offline)
    case SeedReply => [SeedReplyHtml(worldSeed)]
    case DebugToggle => []
    case OfflineEcho => [EchoHtml(text), OfflineNoticeHtml()]
    case Emit => []
  }

  /** The texts handed to the socket for one send. */
  function Sent(text: string, offline: bool): seq<string>
  {
    if RouteOf(text, offline) == Emit then [text] else []
  }

  /** The debug panel is flipped exactly by `/debug…`. */
  function DebugAfter(text: string, offline: bool, shown: bool): bool
  {
    if RouteOf(text, offline) == DebugToggle then !shown else shown
  }

  /** `/seed…` is answered locally, with one yellow system message that
      reads "Current Seed: " and then the seed verbatim; nothing else
      happens. */
  lemma SeedIsLocal(text: string, worldSeed: string, offline: bool, shown: bool)
    requires StartsWith(text, "/seed")
    ensures Sent(text, offline) == []
    ensures DebugAfter(text, offline, shown) == shown
    ensures Shown(text, worldSeed, offline) == [MessageHtml("SYSTEM", "Current Seed: " + worldSeed, "#facc15", true)]
    ensures var h := Shown(text, worldSeed, offline)[0];
      |h| == |worldSeed| + 27 && h[6..20] == "Current Seed: " && h[20..20 + |worldSeed|] == worldSeed
  {
    SeedReplyCarries(worldSeed);
  }

  /** Where the seed sits in the reply. */
  lemma SeedReplyCarries(worldSeed: string)
    ensures var h := SeedReplyHtml(worldSeed);
      |h| == |worldSeed| + 27 && h[6..20] == "Current Seed: " && h[20..20 + |worldSeed|] == worldSeed
  {
    Slices("<span>", "Current Seed: ", worldSeed, CLOSE);
    assert SeedReplyHtml(worldSeed) == "<span>" + "Current Seed: " + worldSeed + CLOSE;
  }

  /** The second and third parts of a four-part concatenation. */
  lemma Slices(a: string, b: string, c: string, d: string)
    ensures var h := a + b + c + d;
      h[|a|..|a| + |b|] == b && h[|a| + |b|..|a| + |b| + |c|] == c
  {
    var h := a + b + c + d;
    assert forall i :: 0 <= i < |b| ==> h[|a| + i] == b[i];
    assert forall i :: 0 <= i < |c| ==> h[|a| + |b| + i] == c[i];
  }

  /** `/debug…` only flips the panel. */
  lemma DebugOnlyToggles(text: string, worldSeed: string, offline: bool, shown: bool)
    requires StartsWith(text, "/debug")
    ensures Sent(text, offline) == []
    ensures Shown(text, worldSeed, offline) == []
    ensures DebugAfter(text, offline, shown) == !shown
  {
    assert text[..5] != "/seed" by { assert text[..6][1] == 'd'; assert text[1] == 'd'; }
  }

  /** Offline, nothing is ever sent. */
  lemma OfflineNeverSends(text: string)
    ensures Sent(text, true) == []
  {
  }

  /** Online, a text that is not a command is sent once, unchanged, and
      shown only when the server echoes it back; a send happens only then. */
  lemma OnlineSendsOnce(text: string, worldSeed: string, shown: bool)
    ensures Sent(text, false) == [text] <==> !StartsWith(text, "/seed") && !StartsWith(text, "/debug")
    ensures |Sent(text, false)| <= 1
    ensures Sent(text, false) != [] ==>
      Shown(text, worldSeed, false) == [] && DebugAfter(text, false, shown) == shown
  {
  }

  /** Offline, the player's own text is shown escaped, then a notice. */
  lemma OfflineEchoes(text: string, worldSeed: string)
    requires !StartsWith(text, "/seed") && !StartsWith(text, "/debug")
    ensures Shown(text, worldSeed, true) == [EchoHtml(text), OfflineNoticeHtml()]
  {
    assert RouteOf(text, true) == OfflineEcho;
  }

  /** The echo escapes everything the player typed. */
  lemma EchoEscaped(text: string)
    ensures Brackets(EchoHtml(text)) == Brackets(MARKUP)
  {
    var white: string := "#fff";
    assert NoBrackets(white);
    NoBracketsCount(white);
    PlayerEscaped("YOU", text, white);
  }

  /** `toggleChat(forceState?)` (chat.ts:45-46). */
  function Toggled(open: bool, forceState: Option<bool>): bool
  {
    if forceState.Some? then forceState.value else !open
  }

  lemma ToggledSpec(open: bool, b: bool)
    ensures Toggled(open, Some(b)) == b
    ensures Toggled(open, None) != open
    ensures Toggled(Toggled(open, None), None) == open
    ensures Toggled(Toggled(open, Some(b)), Some(b)) == b
  {
  }

  // ---------------------------------------------------------------------
  // The chat module's state
  // ---------------------------------------------------------------------

  class ChatState {
    /** `isChatOpen` (chat.ts:6). */
    var isChatOpen: bool
    /** The HTML of each message element appended to the list, oldest first. */
    var messages: seq<string>
    /** Texts handed to the socket, oldest first. */
    var outbox: seq<string>
    /** Whether the debug panel shows. */
    var debugShown: bool

    constructor(debugShown: bool)
      ensures !isChatOpen && messages == [] && outbox == [] && this.debugShown == debugShown
    {
      isChatOpen := false;
      messages := [];
      outbox := [];
      this.debugShown := debugShown;
    }

    /** `setChatOpen` (chat.ts:8). */
    method SetChatOpen(val: bool)
      modifies this
      ensures isChatOpen == val
      ensures messages == old(messages) && outbox == old(outbox) && debugShown == old(debugShown)
    {
      isChatOpen := val;
    }

    /** `addChatMessage` (chat.ts:10-22): one element appended. */
    method AddChatMessage(nickname: string, text: string, color: string, isSystem: bool)
      modifies this
      ensures messages == old(messages) + [MessageHtml(nickname, text, color, isSystem)]
      ensures isChatOpen == old(isChatOpen) && outbox == old(outbox) && debugShown == old(debugShown)
    {
      var html: string;
      if isSystem {
        html := "<span>" + text + CLOSE;
      } else {
        var safeNick := ReplaceAll(ReplaceAll(nickname, '<', "&lt;"), '>', "&gt;");
        var safeText := ReplaceAll(ReplaceAll(text, '<', "&lt;"), '>', "&gt;");
        html := NICK_OPEN_HEAD + color + NICK_OPEN_TAIL + safeNick + TEXT_OPEN + safeText + CLOSE;
      }
      messages := messages + [html];
    }

    /** `handleChatSend` (chat.ts:26-38). */
    method HandleChatSend(text: string, worldSeed: string, offline: bool)
      modifies this
      ensures messages == old(messages) + Shown(text, worldSeed, offline)
      ensures outbox == old(outbox) + Sent(text, offline)
      ensures debugShown == DebugAfter(text, offline, old(debugShown))
      ensures isChatOpen == old(isChatOpen)
    {
      if |text| >= 5 && text[..5] == "/seed" {
        AddChatMessage("SYSTEM", "Current Seed: " + worldSeed, "#facc15", true);
      } else if |text| >= 6 && text[..6] == "/debug" {
        debugShown := !debugShown;
      } else if offline {
        AddChatMessage("YOU", text, "#fff", false);
        AddChatMessage("SYSTEM", "Chat is disabled in offline mode.", "#ef4444", true);
      } else {
        outbox := outbox + [text];
      }
    }

    /** `toggleChat` (chat.ts:40-46). */
    method ToggleChat(forceState: Option<bool>)
      modifies this
      ensures isChatOpen == Toggled(old(isChatOpen), forceState)
      ensures messages == old(messages) && outbox == old(outbox) && debugShown == old(debugShown)
    {
      if forceState.Some? {
        isChatOpen := forceState.value;
      } else {
        isChatOpen := !isChatOpen;
      }
    }
  }
}
