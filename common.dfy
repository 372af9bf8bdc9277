/** The helpers shared by every adapter: the conversation normaliser
    `HandleMessages`, the data-URI sniffer `GetMime` and the rejection-sampling
    `RandomString`. */
module Common {
  import opened Canonical
  import opened Strings

  // ---------------------------------------------------------------------------
  // HandleMessages
  // ---------------------------------------------------------------------------

  /** The messages whose content is not the literal empty string, in order. */
  function Kept(ms: seq<Message>): seq<Message>
    decreases |ms|
  {
    if |ms| == 0 then []
    else Kept(ms[..|ms| - 1]) + (if IsEmptyContent(ms[|ms| - 1].content) then [] else [ms[|ms| - 1]])
  }

  /** The role the normaliser gives the message at position `j` of the turns. */
  function TurnRole(j: nat): string {
    if j % 2 == 0 then RoleUser else RoleAssistant
  }

  /** The re-roling never produces a system message. */
  lemma TurnRoleNotSystem(j: nat)
    ensures TurnRole(j) != RoleSystem
  {
    assert |RoleUser| != |RoleSystem| && |RoleAssistant| != |RoleSystem|;
  }

  /** Every message re-roled by its position: user, assistant, user, … */
  function Alternate(ms: seq<Message>): (r: seq<Message>)
    ensures |r| == |ms|
  {
    seq(|ms|, j requires 0 <= j < |ms| => ms[j].(role := TurnRole(j)))
  }

  /** Whether the normaliser detaches the first kept message as the system prompt. */
  predicate DetachesSystem(kept: seq<Message>, isSupportSystemRole: bool) {
    isSupportSystemRole && |kept| > 0 && kept[0].role == RoleSystem
  }

  /** How many leading messages are detached as the system prompt: none or one. */
  function SystemPrefix(kept: seq<Message>, isSupportSystemRole: bool): nat {
    if DetachesSystem(kept, isSupportSystemRole) then 1 else 0
  }

  /** How many of the oldest non-system messages are dropped: one when the
      remainder has even, non-zero length, otherwise none. */
  function Dropped(kept: seq<Message>, isSupportSystemRole: bool): nat {
    var rest := kept[SystemPrefix(kept, isSupportSystemRole)..];
    if |rest| != 0 && |rest| % 2 == 0 then 1 else 0
  }

  /** The turns before re-roling: the kept messages without a detached system
      prompt and, when their number is even and non-zero, without the oldest. */
  function Turns(kept: seq<Message>, isSupportSystemRole: bool): seq<Message> {
    var rest := if DetachesSystem(kept, isSupportSystemRole) then kept[1..] else kept;
    if |rest| != 0 && |rest| % 2 == 0 then rest[1..] else rest
  }

  /** What `HandleMessages` returns. Reading `newMessages[0]` of an empty list
      panics, and Go's `&&` only reads it when system roles are supported. */
  function Normalize(ms: seq<Message>, isSupportSystemRole: bool): (r: Outcome<seq<Message>>)
    ensures r.Panic? <==> isSupportSystemRole && |Kept(ms)| == 0
    ensures r.Ok? ==> |r.value| <= |Kept(ms)|
  {
    var kept := Kept(ms);
    if isSupportSystemRole && |kept| == 0 then Panic("index out of range [0] with length 0")
    else if DetachesSystem(kept, isSupportSystemRole) then Ok([kept[0]] + Alternate(Turns(kept, isSupportSystemRole)))
    else Ok(Alternate(Turns(kept, isSupportSystemRole)))
  }

  /** The normaliser: an append loop filters out empty contents into a fresh
      list, the list is resliced, a backward loop rewrites the roles in place
      and the system prompt is put back in front. */
  method HandleMessages(messages: seq<Message>, isSupportSystemRole: bool) returns (r: Outcome<seq<Message>>)
    ensures r == Normalize(messages, isSupportSystemRole)
  {
    var newMessages := FilterEmpty(messages);
    ghost var kept := newMessages;

    var systemRoleMessage: Option<Message> := None;
    if isSupportSystemRole {
      if |newMessages| == 0 {
        return Panic("index out of range [0] with length 0");
      }
      if newMessages[0].role == RoleSystem {
        systemRoleMessage := Some(newMessages[0]);
        newMessages := newMessages[1..];
      }
    }
    if |newMessages| != 0 && |newMessages| % 2 == 0 {
      newMessages := newMessages[1..];
    }
    assert newMessages == Turns(kept, isSupportSystemRole);
    var result := Rerole(newMessages);
    if systemRoleMessage.Some? {
      result := [systemRoleMessage.value] + result;
    }
    return Ok(result);
  }

  /** The append loop: the messages whose content is not empty, in order. */
  method FilterEmpty(messages: seq<Message>) returns (newMessages: seq<Message>)
    ensures newMessages == Kept(messages)
  {
    newMessages := [];
    for k := 0 to |messages|
      invariant newMessages == Kept(messages[..k])
    {
      assert messages[..k + 1][..k] == messages[..k];
      if !IsEmptyContent(messages[k].content) {
        newMessages := newMessages + [messages[k]];
      }
    }
    assert messages[..|messages|] == messages;
  }

  /** The backward loop over a copy of the turns: even positions become
      user turns, odd positions assistant turns. */
  method Rerole(newMessages: seq<Message>) returns (result: seq<Message>)
    ensures result == Alternate(newMessages)
  {
    var turns := new Message[|newMessages|](j requires 0 <= j < |newMessages| => newMessages[j]);
    var i := turns.Length - 1;
    while i >= 0
      invariant -1 <= i < turns.Length
      invariant forall j :: 0 <= j <= i ==> turns[j] == newMessages[j]
      invariant forall j :: i < j < turns.Length ==> turns[j] == newMessages[j].(role := TurnRole(j))
      decreases i
    {
      if i % 2 == 0 {
        turns[i] := turns[i].(role := RoleUser);
      } else {
        turns[i] := turns[i].(role := RoleAssistant);
      }
      i := i - 1;
    }
    result := turns[..];
  }

  /** Filtering distributes over concatenation, so relative order is kept. */
  lemma {:induction false} KeptAppend(a: seq<Message>, b: seq<Message>)
    ensures Kept(a + b) == Kept(a) + Kept(b)
    decreases |b|
  {
    if |b| == 0 {
      assert a + b == a;
    } else {
      var b' := b[..|b| - 1];
      KeptAppend(a, b');
      assert (a + b)[..|a + b| - 1] == a + b';
      assert b[..|b| - 1] == b';
    }
  }

  /** A message survives the filter exactly when its content is not `""`;
      non-string and nil contents survive. */
  lemma {:induction false} KeptMembership(ms: seq<Message>, m: Message)
    ensures m in Kept(ms) <==> m in ms && !IsEmptyContent(m.content)
    decreases |ms|
  {
    if |ms| > 0 {
      var init := ms[..|ms| - 1];
      KeptMembership(init, m);
      assert ms == init + [ms[|ms| - 1]];
    }
  }

  /** A list without empty contents passes the filter unchanged, and the
      filter never keeps an empty content. */
  lemma {:induction false} KeptIdentity(ms: seq<Message>)
    ensures Kept(ms) == ms <==> forall j :: 0 <= j < |ms| ==> !IsEmptyContent(ms[j].content)
    decreases |ms|
  {
    if |ms| > 0 {
      var init := ms[..|ms| - 1];
      var last := ms[|ms| - 1];
      KeptIdentity(init);
      KeptShorter(init);
      assert ms == init + [last];
      if IsEmptyContent(last.content) {
        assert |Kept(ms)| < |ms|;
      } else {
        assert Kept(ms) == Kept(init) + [last];
        if Kept(ms) == ms {
          assert Kept(init) == Kept(ms)[..|init|];
        }
        assert (forall j :: 0 <= j < |ms| ==> !IsEmptyContent(ms[j].content))
               <==> (forall j :: 0 <= j < |init| ==> !IsEmptyContent(init[j].content));
      }
    }
  }

  lemma {:induction false} KeptShorter(ms: seq<Message>)
    ensures |Kept(ms)| <= |ms|
    decreases |ms|
  {
    if |ms| > 0 {
      KeptShorter(ms[..|ms| - 1]);
    }
  }

  lemma KeptNonEmpty(ms: seq<Message>)
    ensures forall m :: m in Kept(ms) ==> !IsEmptyContent(m.content)
  {
    forall m | m in Kept(ms) ensures !IsEmptyContent(m.content) {
      KeptMembership(ms, m);
    }
  }

  /** The normaliser panics exactly when system roles are supported and no
      message has non-empty content (the empty input included). */
  lemma NormalizePanicsIff(ms: seq<Message>, isSupportSystemRole: bool)
    ensures Normalize(ms, isSupportSystemRole).Panic? <==>
            isSupportSystemRole && forall j :: 0 <= j < |ms| ==> IsEmptyContent(ms[j].content)
  {
    if forall j :: 0 <= j < |ms| ==> IsEmptyContent(ms[j].content) {
      if |Kept(ms)| > 0 {
        KeptMembership(ms, Kept(ms)[0]);
      }
    } else {
      var j :| 0 <= j < |ms| && !IsEmptyContent(ms[j].content);
      KeptMembership(ms, ms[j]);
    }
  }

  /** After the drop the turns are never an even, non-zero number. */
  lemma TurnsOdd(kept: seq<Message>, isSupportSystemRole: bool)
    ensures var t := Turns(kept, isSupportSystemRole);
            |t| % 2 == 1 || |t| == 0
  {
  }

  /** The result is the optional system prompt followed by the re-roled turns. */
  lemma NormalizeSplits(ms: seq<Message>, isSupportSystemRole: bool, r: seq<Message>)
    requires Normalize(ms, isSupportSystemRole) == Ok(r)
    ensures var kept := Kept(ms);
            var h := SystemPrefix(kept, isSupportSystemRole);
            h <= |r| && r[..h] == kept[..h] && r[h..] == Alternate(Turns(kept, isSupportSystemRole))
  {
    var kept := Kept(ms);
    var t := Alternate(Turns(kept, isSupportSystemRole));
    if DetachesSystem(kept, isSupportSystemRole) {
      assert r == [kept[0]] + t;
      assert r[1..] == t;
    } else {
      assert r == t;
    }
  }

  /** The turns after the optional system prompt alternate user/assistant,
      have odd length (or none at all), and start and end with a user turn.
      The length `h` of that prefix is one exactly when system roles are
      supported and the output starts with a system message. */
  lemma NormalizeAlternates(ms: seq<Message>, isSupportSystemRole: bool, r: seq<Message>) returns (h: nat)
    requires Normalize(ms, isSupportSystemRole) == Ok(r)
    ensures h <= 1 && h <= |r| && ((|r| - h) % 2 == 1 || |r| == h)
    ensures forall j :: h <= j < |r| ==> r[j].role == TurnRole(j - h)
    ensures |r| > h ==> r[h].role == RoleUser && r[|r| - 1].role == RoleUser
    ensures h == 1 <==> isSupportSystemRole && |r| > 0 && r[0].role == RoleSystem
  {
    var kept := Kept(ms);
    NormalizeSplits(ms, isSupportSystemRole, r);
    h := SystemPrefix(kept, isSupportSystemRole);
    TurnsAlternate(Turns(kept, isSupportSystemRole), kept, isSupportSystemRole, r, h);
    if h == 1 {
      assert r[0] == r[..1][0];
    }
  }

  lemma TurnsAlternate(t: seq<Message>, kept: seq<Message>, isSupportSystemRole: bool, r: seq<Message>, h: nat)
    requires t == Turns(kept, isSupportSystemRole)
    requires h <= |r| && r[h..] == Alternate(t)
    ensures (|r| - h) % 2 == 1 || |r| == h
    ensures forall j :: h <= j < |r| ==> r[j].role == TurnRole(j - h)
    ensures |r| > h ==> r[h].role == RoleUser && r[|r| - 1].role == RoleUser
  {
    TurnsOdd(kept, isSupportSystemRole);
    var body := r[h..];
    forall j | h <= j < |r| ensures r[j].role == TurnRole(j - h) {
      assert r[j] == body[j - h];
    }
  }

  /** The first message with non-empty content heads the filtered list. */
  lemma KeptFirst(ms: seq<Message>, j: int)
    requires 0 <= j < |ms| && !IsEmptyContent(ms[j].content)
    requires forall i :: 0 <= i < j ==> IsEmptyContent(ms[i].content)
    ensures |Kept(ms)| > 0 && Kept(ms)[0] == ms[j]
  {
    assert ms == ms[..j] + ([ms[j]] + ms[j + 1..]);
    KeptAppend(ms[..j], [ms[j]] + ms[j + 1..]);
    KeptAppend([ms[j]], ms[j + 1..]);
    KeptIdentityEmpty(ms[..j]);
    assert [ms[j]][..0] == [];
    assert Kept([ms[j]]) == [ms[j]];
  }

  /** When system roles are supported and the first message with non-empty
      content is a system message, it comes back unchanged at index 0. */
  lemma NormalizeKeepsSystem(ms: seq<Message>, isSupportSystemRole: bool, r: seq<Message>, j: int)
    requires Normalize(ms, isSupportSystemRole) == Ok(r)
    requires isSupportSystemRole
    requires 0 <= j < |ms| && !IsEmptyContent(ms[j].content) && ms[j].role == RoleSystem
    requires forall i :: 0 <= i < j ==> IsEmptyContent(ms[i].content)
    ensures |r| >= 1 && r[0] == ms[j]
  {
    KeptFirst(ms, j);
    NormalizeSplits(ms, isSupportSystemRole, r);
    assert r[..1][0] == r[0];
  }

  /** A list of empty contents filters to nothing. */
  lemma {:induction false} KeptIdentityEmpty(ms: seq<Message>)
    requires forall i :: 0 <= i < |ms| ==> IsEmptyContent(ms[i].content)
    ensures Kept(ms) == []
    decreases |ms|
  {
    if |ms| > 0 {
      KeptIdentityEmpty(ms[..|ms| - 1]);
    }
  }

  /** Apart from roles, the turns are the kept messages in their original
      order, with at most the oldest non-system message dropped, and it is
      dropped exactly when the remainder had even, non-zero length. */
  lemma NormalizeKeepsOrder(ms: seq<Message>, isSupportSystemRole: bool, r: seq<Message>)
    requires Normalize(ms, isSupportSystemRole) == Ok(r)
    ensures FieldsShifted(r, Kept(ms), SystemPrefix(Kept(ms), isSupportSystemRole),
                          Dropped(Kept(ms), isSupportSystemRole))
  {
    var kept := Kept(ms);
    NormalizeSplits(ms, isSupportSystemRole, r);
    TurnsSlice(kept, isSupportSystemRole);
    ShiftedFields(r, kept, SystemPrefix(kept, isSupportSystemRole), Dropped(kept, isSupportSystemRole));
  }

  /** From position `h` on, `r` holds the contents and names of `kept`
      shifted by `d`, and is `d` shorter. */
  predicate FieldsShifted(r: seq<Message>, kept: seq<Message>, h: nat, d: nat) {
    |r| == |kept| - d &&
    forall j :: h <= j < |r| ==>
      j + d < |kept| && r[j].content == kept[j + d].content && r[j].name == kept[j + d].name
  }

  /** A list whose tail from `h` re-roles a suffix of `kept` starting at
      `h + d` carries that suffix's contents and names, shifted by `d`. */
  lemma ShiftedFields(r: seq<Message>, kept: seq<Message>, h: nat, d: nat)
    requires h <= |r| && h + d <= |kept| && r[h..] == Alternate(kept[h + d..])
    ensures FieldsShifted(r, kept, h, d)
  {
    forall j | h <= j < |r|
      ensures r[j].content == kept[j + d].content && r[j].name == kept[j + d].name
    {
      assert r[j] == r[h..][j - h];
      assert kept[h + d..][j - h] == kept[j + d];
    }
  }

  /** The turns are the kept messages after the system prefix and the
      dropped message. */
  lemma TurnsSlice(kept: seq<Message>, isSupportSystemRole: bool)
    ensures SystemPrefix(kept, isSupportSystemRole) + Dropped(kept, isSupportSystemRole) <= |kept|
    ensures Turns(kept, isSupportSystemRole)
            == kept[SystemPrefix(kept, isSupportSystemRole) + Dropped(kept, isSupportSystemRole)..]
  {
  }

  /** Re-roling twice is re-roling once. */
  lemma AlternateIdempotent(t: seq<Message>)
    ensures Alternate(Alternate(t)) == Alternate(t)
  {
  }

  /** A list that is already odd (or empty) and has no detachable system
      prompt is its own turn list. */
  lemma TurnsOfOdd(x: seq<Message>, isSupportSystemRole: bool)
    requires !DetachesSystem(x, isSupportSystemRole)
    requires |x| % 2 == 1 || |x| == 0
    ensures Turns(x, isSupportSystemRole) == x
  {
  }

  /** No message of the result has empty content. */
  lemma NormalizeContentsNonEmpty(ms: seq<Message>, isSupportSystemRole: bool, r: seq<Message>)
    requires Normalize(ms, isSupportSystemRole) == Ok(r)
    ensures forall j :: 0 <= j < |r| ==> !IsEmptyContent(r[j].content)
  {
    var kept := Kept(ms);
    var h := SystemPrefix(kept, isSupportSystemRole);
    NormalizeKeepsOrder(ms, isSupportSystemRole, r);
    NormalizeSplits(ms, isSupportSystemRole, r);
    KeptNonEmpty(ms);
    forall j | 0 <= j < |r| ensures !IsEmptyContent(r[j].content) {
      if j < h {
        assert r[j] == r[..h][j] == kept[0];
      } else {
        assert kept[j + Dropped(kept, isSupportSystemRole)] in kept;
      }
    }
  }

  /** Normalising a normalised list changes nothing. */
  lemma NormalizeIdempotent(ms: seq<Message>, isSupportSystemRole: bool, r: seq<Message>)
    requires Normalize(ms, isSupportSystemRole) == Ok(r)
    ensures Normalize(r, isSupportSystemRole) == Ok(r)
  {
    var kept := Kept(ms);
    assert Kept(r) == r by {
      NormalizeContentsNonEmpty(ms, isSupportSystemRole, r);
      KeptIdentity(r);
    }
    NormalizeSplits(ms, isSupportSystemRole, r);
    var t := Turns(kept, isSupportSystemRole);
    TurnsOdd(kept, isSupportSystemRole);
    AlternateIdempotent(t);
    var a := Alternate(t);
    if DetachesSystem(kept, isSupportSystemRole) {
      assert r == [kept[0]] + a by {
        assert r == r[..1] + r[1..];
      }
      assert DetachesSystem(r, isSupportSystemRole);
      assert r[1..] == a;
      assert Turns(r, isSupportSystemRole) == a;
    } else {
      assert r == a;
      assert |r| > 0 ==> r[0].role == RoleUser;
      TurnsOfOdd(r, isSupportSystemRole);
    }
  }

  // ---------------------------------------------------------------------------
  // GetMime
  // ---------------------------------------------------------------------------

  /** A MIME type either taken from a data URI or looked up in the constant
      extension table by one of the keys jpg, png, webp, gif, pdf and txt. */
  datatype Mime = MimeType(mime: string) | FromTable(ext: string)

  const Base64Marker: string := "base64,"

  /** The table key chosen by the first three characters of the payload. */
  function MagicExtension(data: string): (ext: string)
    requires |data| >= 3
    ensures ext in {"jpg", "png", "webp", "gif", "pdf", "txt"}
  {
    var head := data[..3];
    if head == "/9j" then "jpg"
    else if head == "iVB" then "png"
    else if head == "Ukl" then "webp"
    else if head == "R0l" then "gif"
    else if head == "JVB" then "pdf"
    else "txt"
  }

  /** The MIME type named between the `data:<kind>/` prefix and the first `;`
      of the header, when the URL starts with one of the two prefixes read. */
  function DerivedMime(url: string, header: string): (m: Option<string>)
    requires header <= url
    requires Split(url, Base64Marker)[0] == header
  {
    if StartsWith(url, "data:image/") then
      FirstPieceKeepsPrefix(url, Base64Marker, "data:image/");
      Some("image/" + Split(header[11..], ";")[0])
    else if StartsWith(url, "data:text/") then
      FirstPieceKeepsPrefix(url, Base64Marker, "data:text/");
      Some("text/" + Split(header[10..], ";")[0])
    else None
  }

  /** `GetMime(url)`: the payload after the first `base64,` (the whole URL when
      there is none) and its MIME type. Slicing the first three bytes of a
      payload shorter than three bytes panics. A payload's first three bytes
      equal an ASCII tag exactly when its first three characters do. */
  function GetMime(url: string): (r: Outcome<(Mime, string)>)
    ensures var parts := Split(url, Base64Marker);
            var data := if |parts| > 1 then parts[1] else url;
            (r.Ok? ==> r.value.1 == data) && (r.Panic? ==> ByteLength(data) < 3)
  {
    var parts := Split(url, Base64Marker);
    SplitFirstIsPrefix(url, Base64Marker);
    var data := if |parts| > 1 then parts[1] else url;
    var derived := if |parts| > 1 then DerivedMime(url, parts[0]) else None;
    if derived.Some? then Ok((MimeType(derived.value), data))
    else if ByteLength(data) < 3 then Panic("slice bounds out of range [:3]")
    else if |data| < 3 then Ok((FromTable("txt"), data))
    else Ok((FromTable(MagicExtension(data)), data))
  }

  /** When `q` is a prefix of `s` in which the separator's first character
      never occurs, the first piece of `s` is at least as long as `q`. */
  lemma {:induction false} FirstPieceKeepsPrefix(s: string, sep: string, q: string)
    requires |sep| > 0 && q <= s
    requires forall i :: 0 <= i < |q| ==> q[i] != sep[0]
    ensures q <= Split(s, sep)[0]
    decreases |s|
  {
    if |q| > 0 {
      assert s[0] == q[0];
      if |s| >= |sep| {
        assert s[..|sep|][0] != sep[0];
        FirstPieceKeepsPrefix(s[1..], sep, q[1..]);
      }
    }
  }

  /** A string lacking one of the separator's characters does not contain it. */
  lemma AbsentCharNoOccurrence(s: string, sep: string, k: int)
    requires 0 <= k < |sep|
    requires forall i :: 0 <= i < |s| ==> s[i] != sep[k]
    ensures !Contains(s, sep)
  {
    forall i | 0 <= i <= |s| ensures !OccursAt(s, sep, i) {
      if i + |sep| <= |s| {
        assert s[i..i + |sep|][k] == s[i + k];
      }
    }
  }

  /** A header free of commas ends at the first marker, and the payload after
      it runs to the end when it holds no further marker. */
  lemma SplitAtMarker(header: string, payload: string)
    requires forall i :: 0 <= i < |header| ==> header[i] != ','
    requires !Contains(payload, Base64Marker)
    ensures Split(header + Base64Marker + payload, Base64Marker) == [header, payload]
  {
    var probe := header + Base64Marker[..|Base64Marker| - 1];
    assert forall i :: 0 <= i < |probe| ==> probe[i] != ',';
    AbsentCharNoOccurrence(probe, Base64Marker, 6);
    SplitAtFirst(header, Base64Marker, payload);
    SplitAbsent(payload, Base64Marker);
  }

  /** The text before the first `;` of `X;` is `X` when `X` has no `;`. */
  lemma SplitAtSemicolon(sub: string)
    requires forall i :: 0 <= i < |sub| ==> sub[i] != ';'
    ensures Split(sub + ";", ";")[0] == sub
  {
    AbsentCharNoOccurrence(sub, ";", 0);
    assert sub + ";"[..0] == sub;
    SplitAtFirst(sub, ";", "");
    assert sub + ";" == sub + ";" + "";
  }

  /** A data URI `data:image/X;base64,P` yields MIME type `image/X` and
      payload `P`, whatever `P` looks like. */
  lemma GetMimeImageUri(sub: string, payload: string)
    requires forall i :: 0 <= i < |sub| ==> sub[i] != ';' && sub[i] != ','
    requires !Contains(payload, Base64Marker)
    ensures GetMime("data:image/" + sub + ";" + Base64Marker + payload) == Ok((MimeType("image/" + sub), payload))
  {
    var header := "data:image/" + sub + ";";
    var url := "data:image/" + sub + ";" + Base64Marker + payload;
    assert url == header + Base64Marker + payload;
    SplitAtMarker(header, payload);
    SplitAtSemicolon(sub);
    assert StartsWith(url, "data:image/");
    assert header[11..] == sub + ";";
  }

  /** A data URI `data:text/X;base64,P` yields MIME type `text/X` and payload `P`. */
  lemma GetMimeTextUri(sub: string, payload: string)
    requires forall i :: 0 <= i < |sub| ==> sub[i] != ';' && sub[i] != ','
    requires !Contains(payload, Base64Marker)
    ensures GetMime("data:text/" + sub + ";" + Base64Marker + payload) == Ok((MimeType("text/" + sub), payload))
  {
    var header := "data:text/" + sub + ";";
    var url := "data:text/" + sub + ";" + Base64Marker + payload;
    assert url == header + Base64Marker + payload;
    SplitAtMarker(header, payload);
    SplitAtSemicolon(sub);
    assert url[5] == 't';
    assert !StartsWith(url, "data:image/");
    assert StartsWith(url, "data:text/");
    assert header == "data:text/" + (sub + ";");
    assert header[10..] == sub + ";";
  }

  /** Without a `base64,` marker the whole URL is the payload, and the MIME type
      comes from its first three characters (a payload under three bytes panics). */
  lemma GetMimeRaw(url: string)
    requires !Contains(url, Base64Marker)
    ensures ByteLength(url) < 3 ==> GetMime(url).Panic?
    ensures |url| >= 3 ==> GetMime(url) == Ok((FromTable(MagicExtension(url)), url))
  {
    SplitAbsent(url, Base64Marker);
  }

  /** The payload is the text between the first `base64,` and the next one (or
      the end): it never contains the marker, and the URL is the header, the
      marker, the payload and a remainder that is empty or starts a new marker. */
  lemma GetMimePayload(url: string) returns (header: string, rest: string)
    requires Contains(url, Base64Marker)
    requires GetMime(url).Ok?
    ensures !Contains(GetMime(url).value.1, Base64Marker)
    ensures url == header + Base64Marker + GetMime(url).value.1 + rest
    ensures rest == [] || StartsWith(rest, Base64Marker)
  {
    header, rest := MarkerPayload(url);
    assert GetMime(url).value.1 == Split(url, Base64Marker)[1];
  }

  /** A URL holding the marker splits into a header, the marker, a
      marker-free second piece and a remainder that is empty or starts a new
      marker. */
  lemma MarkerPayload(url: string) returns (header: string, rest: string)
    requires Contains(url, Base64Marker)
    ensures |Split(url, Base64Marker)| >= 2
    ensures !Contains(Split(url, Base64Marker)[1], Base64Marker)
    ensures url == header + Base64Marker + Split(url, Base64Marker)[1] + rest
    ensures rest == [] || StartsWith(rest, Base64Marker)
  {
    var parts := Split(url, Base64Marker);
    SplitPiecesAreFree(url, Base64Marker);
    SplitJoin(url, Base64Marker);
    if |parts| == 1 {
      assert false;
    }
    header := parts[0];
    rest := JoinTail(parts, Base64Marker);
    assert url == header + Base64Marker + (parts[1] + rest);
    assert header + Base64Marker + (parts[1] + rest) == header + Base64Marker + parts[1] + rest;
  }

  // ---------------------------------------------------------------------------
  // RandomString
  // ---------------------------------------------------------------------------

  /** The 62 letters a random string is drawn from. */
  const Letters: string := "abcdefghijklmnopqrstuvwxyzABCDEFGHIJKLMNOPQRSTUVWXYZ0123456789"
  /** How many 6-bit letter indices one 63-bit random word provides. */
  const IndicesPerWord: nat := 10

  /** The 6-bit groups of a word, least significant first, `k` of them. */
  function WordGroups(w: nat, k: nat): (g: seq<nat>)
    ensures |g| == k
    ensures forall j :: 0 <= j < |g| ==> g[j] < 64
  {
    if k == 0 then [] else [w % 64] + WordGroups(w / 64, k - 1)
  }

  /** The letter indices that a sequence of random words supplies, in order. */
  function Groups(words: seq<nat>): seq<nat>
    decreases |words|
  {
    if |words| == 0 then [] else WordGroups(words[0], IndicesPerWord) + Groups(words[1..])
  }

  /** The indices that rejection sampling accepts: those naming a letter. */
  function Accepted(g: seq<nat>): (a: seq<nat>)
    ensures forall j :: 0 <= j < |a| ==> a[j] < |Letters|
    decreases |g|
  {
    if |g| == 0 then [] else (if g[0] < |Letters| then [g[0]] else []) + Accepted(g[1..])
  }

  lemma {:induction false} AcceptedAppend(a: seq<nat>, b: seq<nat>)
    ensures Accepted(a + b) == Accepted(a) + Accepted(b)
    decreases |a|
  {
    if |a| == 0 {
      assert a + b == b;
    } else {
      AcceptedAppend(a[1..], b);
      var h := if a[0] < |Letters| then [a[0]] else [];
      assert (a + b)[0] == a[0] && (a + b)[1..] == a[1..] + b;
      assert Accepted(a + b) == h + Accepted(a[1..] + b);
      assert Accepted(a) == h + Accepted(a[1..]);
      assert h + (Accepted(a[1..]) + Accepted(b)) == (h + Accepted(a[1..])) + Accepted(b);
    }
  }

  /** The string of `n` letters whose last character uses the first accepted
      index, the one before it the second, and so on. */
  function FillBackward(acc: seq<nat>, n: nat): (s: string)
    requires n <= |acc|
    requires forall j :: 0 <= j < |acc| ==> acc[j] < |Letters|
    ensures |s| == n
  {
    seq(n, j requires 0 <= j < n => Letters[acc[n - 1 - j]])
  }

  /** The sampler's ghost state: the indices accepted so far (`taken`)
      followed by those the cached word and the unread words still supply
      are all the indices the words supply. */
  ghost predicate Sampling(words: seq<nat>, k: nat, cache: nat, remain: nat, taken: seq<nat>)
  {
    1 <= k <= |words| && remain <= IndicesPerWord &&
    taken + Accepted(WordGroups(cache, remain) + Groups(words[k..])) == Accepted(Groups(words))
  }

  lemma SamplingStart(words: seq<nat>)
    requires |words| > 0
    ensures Sampling(words, 1, words[0], IndicesPerWord, [])
  {
    assert words[1..] == words[0..][1..];
    assert words[0..] == words;
  }

  /** Drawing a fresh word when the cached one is used up. */
  lemma SamplingRefresh(words: seq<nat>, k: nat, cache: nat, taken: seq<nat>)
    requires Sampling(words, k, cache, 0, taken) && k < |words|
    ensures Sampling(words, k + 1, words[k], IndicesPerWord, taken)
  {
    assert WordGroups(cache, 0) + Groups(words[k..]) == Groups(words[k..]);
    assert words[k..][1..] == words[k + 1..];
  }

  /** When the words run out every supplied index has been taken. */
  lemma SamplingExhausted(words: seq<nat>, cache: nat, taken: seq<nat>)
    requires Sampling(words, |words|, cache, 0, taken)
    ensures taken == Accepted(Groups(words))
  {
    assert words[|words|..] == [];
  }

  /** One step: the lowest six bits of the cached word are accepted when they
      name a letter, and the word is shifted by six bits. */
  lemma SamplingDraw(words: seq<nat>, k: nat, cache: nat, remain: nat, taken: seq<nat>)
    requires Sampling(words, k, cache, remain, taken) && remain > 0
    ensures cache % 64 < |Letters| ==> Sampling(words, k, cache / 64, remain - 1, taken + [cache % 64])
    ensures cache % 64 >= |Letters| ==> Sampling(words, k, cache / 64, remain - 1, taken)
  {
    var rest := Groups(words[k..]);
    assert WordGroups(cache, remain) + rest == [cache % 64] + (WordGroups(cache / 64, remain - 1) + rest);
    var pending := Accepted(WordGroups(cache / 64, remain - 1) + rest);
    if cache % 64 < |Letters| {
      assert (taken + [cache % 64]) + pending == taken + ([cache % 64] + pending);
    } else {
      assert taken + [] == taken;
    }
  }

  /** What has been taken is a prefix of everything the words supply. */
  lemma SamplingPrefix(words: seq<nat>, k: nat, cache: nat, remain: nat, taken: seq<nat>)
    requires Sampling(words, k, cache, remain, taken)
    ensures taken <= Accepted(Groups(words))
    ensures forall j :: 0 <= j < |taken| ==> taken[j] < |Letters|
  {
    var all := Accepted(Groups(words));
    assert forall j :: 0 <= j < |taken| ==> taken[j] == all[j];
  }

  /** Accepting one more index puts its letter in front. */
  lemma FillBackwardSnoc(taken: seq<nat>, idx: nat)
    requires forall j :: 0 <= j < |taken| ==> taken[j] < |Letters|
    requires idx < |Letters|
    ensures FillBackward(taken + [idx], |taken| + 1) == [Letters[idx]] + FillBackward(taken, |taken|)
  {
  }

  /** Only the first `n` accepted indices matter. */
  lemma FillBackwardOfPrefix(taken: seq<nat>, all: seq<nat>)
    requires taken <= all
    requires forall j :: 0 <= j < |all| ==> all[j] < |Letters|
    ensures FillBackward(taken, |taken|) == FillBackward(all, |taken|)
  {
  }

  /** What `RandomString(n)` returns when successive `rand.Int63()` calls
      yield `words`: `Ok(None)` says that the words ran out first (the first
      word is drawn even for `n == 0`). A negative length panics in `make`. */
  function RandomSpec(n: int, words: seq<nat>): Outcome<Option<string>> {
    if n < 0 then Panic("makeslice: len out of range")
    else if |words| == 0 || |Accepted(Groups(words))| < n then Ok(None)
    else Ok(Some(FillBackward(Accepted(Groups(words)), n)))
  }

  /** A string returned has exactly `n` characters, all from the alphabet,
      and its last character comes from the first accepted index. */
  lemma RandomSpecShape(n: int, words: seq<nat>, s: string)
    requires RandomSpec(n, words) == Ok(Some(s))
    ensures |s| == n && forall j :: 0 <= j < |s| ==> s[j] in Letters
    ensures n > 0 ==> s[n - 1] == Letters[Accepted(Groups(words))[0]]
  {
    FillBackwardShape(Accepted(Groups(words)), n);
  }

  lemma FillBackwardShape(acc: seq<nat>, n: nat)
    requires n <= |acc|
    requires forall j :: 0 <= j < |acc| ==> acc[j] < |Letters|
    ensures forall j :: 0 <= j < n ==> FillBackward(acc, n)[j] in Letters
    ensures n > 0 ==> FillBackward(acc, n)[n - 1] == Letters[acc[0]]
  {
    var s := FillBackward(acc, n);
    forall j | 0 <= j < n ensures s[j] in Letters {
      assert s[j] == Letters[acc[n - 1 - j]];
    }
  }

  /** One turn of the sampling loop: a fresh word when the cache is used up
      (or exhaustion of the words), then the low six bits as a candidate
      index, which is taken when it is below the alphabet size. */
  method NextIndex(words: seq<nat>, k: nat, cache: nat, remain: nat, ghost taken: seq<nat>)
    returns (exhausted: bool, k': nat, cache': nat, remain': nat, idx: nat)
    requires Sampling(words, k, cache, remain, taken)
    ensures exhausted ==> taken == Accepted(Groups(words))
    ensures !exhausted && idx < |Letters| ==> Sampling(words, k', cache', remain', taken + [idx])
    ensures !exhausted && idx >= |Letters| ==> Sampling(words, k', cache', remain', taken)
    ensures !exhausted ==> |words| - k' < |words| - k || (k' == k && remain' < remain)
    ensures !exhausted ==> k' <= |words|
  {
    k', cache', remain' := k, cache, remain;
    exhausted, idx := false, 0;
    if remain == 0 {
      if k == |words| {
        SamplingExhausted(words, cache, taken);
        return true, k, cache, remain, 0;
      }
      SamplingRefresh(words, k, cache, taken);
      cache', remain' := words[k], IndicesPerWord;
      k' := k + 1;
    }
    SamplingDraw(words, k', cache', remain', taken);
    idx := cache' % 64;
    cache' := cache' / 64;
    remain' := remain' - 1;
  }

  /** Writes the letter for an accepted index just before the filled tail. */
  method PutLetter(b: array<char>, i: int, idx: nat, ghost taken: seq<nat>)
    requires 0 <= i && idx < |Letters| && Written(b, i, taken)
    modifies b
    ensures Written(b, i - 1, taken + [idx])
    ensures b[..i] == old(b[..i])
  {
    ghost var filled := b[i + 1..];
    b[i] := Letters[idx];
    assert b[i..] == [Letters[idx]] + filled;
    FillBackwardSnoc(taken, idx);
  }

  /** The sampler itself, drawing its random words from `words`. */
  method RandomString(n: int, words: seq<nat>) returns (r: Outcome<Option<string>>)
    ensures r == RandomSpec(n, words)
  {
    if n < 0 {
      return Panic("makeslice: len out of range");
    }
    var b := new char[n];
    if |words| == 0 {
      return Ok(None);
    }
    var filled := FillLetters(b, words);
    if !filled {
      return Ok(None);
    }
    return Ok(Some(b[..]));
  }

  /** The sampling loop: fills `b` from its last index down with the letters
      of the accepted indices, and reports whether the words sufficed. */
  method FillLetters(b: array<char>, words: seq<nat>) returns (filled: bool)
    requires |words| > 0
    modifies b
    ensures filled <==> b.Length <= |Accepted(Groups(words))|
    ensures filled ==> b[..] == FillBackward(Accepted(Groups(words)), b.Length)
  {
    var k := 1;
    var cache: nat := words[0];
    var remain: nat := IndicesPerWord;
    var i := b.Length - 1;
    ghost var taken: seq<nat> := [];
    SamplingStart(words);
    while i >= 0
      invariant Filling(b, words, i, k, cache, remain, taken)
      decreases |words| - k, remain
    {
      var exhausted;
      exhausted, i, k, cache, remain, taken := FillStep(b, words, i, k, cache, remain, taken);
      if exhausted {
        return false;
      }
    }
    SamplingPrefix(words, k, cache, remain, taken);
    FillBackwardOfPrefix(taken, Accepted(Groups(words)));
    assert b[..] == b[0..];
    return true;
  }

  /** The loop state of `FillLetters`: the positions after `i` hold the
      letters of the indices taken so far, in reverse. */
  ghost predicate Filling(b: array<char>, words: seq<nat>, i: int, k: nat, cache: nat, remain: nat, taken: seq<nat>)
    reads b
  {
    Written(b, i, taken) && Sampling(words, k, cache, remain, taken)
  }

  /** The positions after `i` hold the letters of `taken`, in reverse. */
  ghost predicate Written(b: array<char>, i: int, taken: seq<nat>)
    reads b
  {
    -1 <= i < b.Length && |taken| == b.Length - 1 - i &&
    (forall j :: 0 <= j < |taken| ==> taken[j] < |Letters|) &&
    b[i + 1..] == FillBackward(taken, |taken|)
  }

  /** One pass of the sampling loop: draws an index and, when it is
      accepted, writes its letter at `i` and moves down. */
  method FillStep(b: array<char>, words: seq<nat>, i: int, k: nat, cache: nat, remain: nat, ghost taken: seq<nat>)
    returns (exhausted: bool, i': int, k': nat, cache': nat, remain': nat, ghost taken': seq<nat>)
    requires 0 <= i && Filling(b, words, i, k, cache, remain, taken)
    modifies b
    ensures exhausted ==> b.Length > |Accepted(Groups(words))|
    ensures !exhausted ==> Filling(b, words, i', k', cache', remain', taken')
    ensures !exhausted ==> |words| - k' < |words| - k || (k' == k && remain' < remain)
  {
    var idx;
    exhausted, k', cache', remain', idx := NextIndex(words, k, cache, remain, taken);
    i', taken' := i, taken;
    if !exhausted && idx < |Letters| {
      PutLetter(b, i, idx, taken);
      taken' := taken + [idx];
      i' := i - 1;
    }
  }

}
