/**
 * The tag that ties a prompt to an agent profile: printing it, parsing it back, and bringing a
 * whole history to the canonical form (src/agents/AgentProfiles.ts and
 * `normalizeAgentProfileMessagesInPlace` of src/agent/Agent.ts).
 */
module AgentProfiles {
  import opened Messages
  import opened Text
  import opened Store

  datatype Source = Bundled | Global | Workspace

  datatype Reference = Reference(source: Source, name: string, path: string)

  function SourceName(source: Source): string {
    match source
    case Bundled => "bundled"
    case Global => "global"
    case Workspace => "workspace"
  }

  const REF_MARKER := "AGENT_PROFILE_REF"
  const BLOCK_MARKER := "AGENT_PROFILE_BEGIN"
  const BLOCK_END := "[AGENT_PROFILE_END]"
  const BODY_BEGIN := "[AGENT_PROFILE_BODY_BEGIN]"
  const BODY_END := "[AGENT_PROFILE_BODY_END]"
  const NOTE_BEGIN := "[AGENT_PROFILE_REF_NOTE]"
  const NOTE_END := "[/AGENT_PROFILE_REF_NOTE]"

  /** Any text that opens no bracket can be the wording of the note. */
  type Wording = s: string | '[' !in s

  const NOTE_TEXT: Wording

  function NoteBody(): string {
    "\n" + NOTE_TEXT + "\n"
  }

  // ----- printing -----

  function PathTag(path: string): string {
    " path=" + path + "]"
  }

  function NameTag(name: string, path: string): string {
    " name=" + name + PathTag(path)
  }

  function Tag(r: Reference): string {
    "[" + REF_MARKER + " source=" + SourceName(r.source) + NameTag(r.name, r.path)
  }

  /** Everything between the tag and the prompt. */
  function Interlude(): string {
    "\n" + (NOTE_BEGIN + (NoteBody() + (NOTE_END + "\n\n")))
  }

  function BuildPromptWithAgentProfileReference(prompt: string, r: Reference): string {
    Tag(r) + (Interlude() + prompt)
  }

  // ----- parsing -----

  function AfterLiteral(s: string, literal: string): Option<string> {
    if StartsWith(s, literal) then Some(s[|literal|..]) else None
  }

  function AfterSpaces(s: string): Option<string> {
    if s == "" || !IsSpace(s[0]) then None else Some(TrimStart(s))
  }

  /** The length of the longest prefix without white space and without `]`. */
  function WordLength(s: string): (n: nat)
    ensures n <= |s| && forall i :: 0 <= i < n ==> !IsSpace(s[i]) && s[i] != ']'
  {
    if s == "" || IsSpace(s[0]) || s[0] == ']' then 0 else 1 + WordLength(s[1..])
  }

  /** The length of the longest prefix without `]`. */
  function BracketFree(s: string): (n: nat)
    ensures n <= |s| && forall i :: 0 <= i < n ==> s[i] != ']'
  {
    if s == "" || s[0] == ']' then 0 else 1 + BracketFree(s[1..])
  }

  function SourceOf(s: string): Option<Source> {
    if StartsWith(s, SourceName(Bundled)) then Some(Bundled)
    else if StartsWith(s, SourceName(Global)) then Some(Global)
    else if StartsWith(s, SourceName(Workspace)) then Some(Workspace)
    else None
  }

  function ParsePath(s: string): Option<string> {
    var s1 :- AfterSpaces(s);
    var s2 :- AfterLiteral(s1, "path=");
    var k := BracketFree(s2);
    if k == |s2| || Trim(s2[..k]) == "" then None else Some(Trim(s2[..k]))
  }

  function ParseName(source: Source, s: string): Option<Reference> {
    var s1 :- AfterSpaces(s);
    var s2 :- AfterLiteral(s1, "name=");
    var n := WordLength(s2);
    var path :- ParsePath(s2[n..]);
    if n == 0 then None else Some(Reference(source, s2[..n], path))
  }

  function ParseAgentProfileTag(raw: string, marker: string): Option<Reference> {
    var s1 :- AfterLiteral(raw, "[" + marker);
    var s2 :- AfterSpaces(s1);
    var s3 :- AfterLiteral(s2, "source=");
    var source :- SourceOf(s3);
    ParseName(source, s3[|SourceName(source)|..])
  }

  function StripNotice(raw: string): string {
    var trimmed := TrimStart(raw);
    if !StartsWith(trimmed, NOTE_BEGIN) then trimmed
    else
      var endIdx := IndexOf(trimmed, NOTE_END);
      if endIdx < 0 then trimmed else TrimStart(trimmed[endIdx + |NOTE_END|..])
  }

  datatype Parsed =
    | Unmatched(strippedPrompt: string)
    | ByBootstrap(reference: Reference, strippedPrompt: string)
    | ByBlock(reference: Reference, strippedPrompt: string)
    | ByReference(reference: Reference, strippedPrompt: string)

  /** The text carries a profile body: a begin marker with the first end marker behind it. */
  predicate HasBody(raw: string) {
    0 <= IndexOf(raw, BODY_BEGIN) < IndexOf(raw, BODY_END)
  }

  function AfterMarker(raw: string, marker: string): string
    requires IndexOf(raw, marker) >= 0
  {
    TrimStart(raw[IndexOf(raw, marker) + |marker|..])
  }

  function ParseAgentProfilePrompt(raw: string): Parsed {
    var reference := ParseAgentProfileTag(raw, REF_MARKER);
    var block := ParseAgentProfileTag(raw, BLOCK_MARKER);
    if reference.Some? && HasBody(raw) then ByBootstrap(reference.value, AfterMarker(raw, BODY_END))
    else if block.Some? && IndexOf(raw, BLOCK_END) >= 0 then ByBlock(block.value, AfterMarker(raw, BLOCK_END))
    else if reference == None || IndexOf(raw, "]") < 0 then Unmatched(raw)
    else ByReference(reference.value, StripNotice(raw[IndexOf(raw, "]") + 1..]))
  }

  // ----- what the parser can return -----

  predicate LeftTrimmed(s: string) {
    s == "" || !IsSpace(s[0])
  }

  /** A reference the tag can carry. */
  predicate Printable(r: Reference) {
    && r.name != "" && (forall i :: 0 <= i < |r.name| ==> !IsSpace(r.name[i]) && r.name[i] != ']')
    && r.path != "" && Trim(r.path) == r.path && forall i :: 0 <= i < |r.path| ==> r.path[i] != ']'
  }

  lemma TrimmedPath(s: string)
    requires forall i :: 0 <= i < |s| ==> s[i] != ']'
    ensures Trim(Trim(s)) == Trim(s) && forall i :: 0 <= i < |Trim(s)| ==> Trim(s)[i] != ']'
  {
    TrimIdempotent(s);
    TrimStartSpec(s);
    TrimEndSpec(TrimStart(s));
  }

  lemma ParsedTagPrintable(raw: string, marker: string)
    ensures var r := ParseAgentProfileTag(raw, marker); r.Some? ==> Printable(r.value)
  {
    hide IsSpace, Trim, TrimStart;
    if ParseAgentProfileTag(raw, marker).Some? {
      var s3 := AfterLiteral(AfterSpaces(AfterLiteral(raw, "[" + marker).value).value, "source=").value;
      var source := SourceOf(s3).value;
      ParsedNamePrintable(source, s3[|SourceName(source)|..]);
    }
  }

  lemma ParsedNamePrintable(source: Source, s: string)
    ensures var r := ParseName(source, s); r.Some? ==> Printable(r.value)
  {
    hide IsSpace, Trim, TrimStart;
    if ParseName(source, s).Some? {
      var s2 := AfterLiteral(AfterSpaces(s).value, "name=").value;
      var n := WordLength(s2);
      ParsedPathPrintable(s2[n..]);
    }
  }

  lemma ParsedPathPrintable(s: string)
    ensures var p := ParsePath(s);
            p.Some? ==> p.value != "" && Trim(p.value) == p.value && forall i :: 0 <= i < |p.value| ==> p.value[i] != ']'
  {
    hide IsSpace, Trim, TrimStart;
    if ParsePath(s).Some? {
      var s2 := AfterLiteral(AfterSpaces(s).value, "path=").value;
      TrimmedPath(s2[..BracketFree(s2)]);
    }
  }

  lemma StrippedLeftTrimmed(raw: string)
    ensures var p := ParseAgentProfilePrompt(raw);
            !p.Unmatched? ==> LeftTrimmed(p.strippedPrompt) && Printable(p.reference)
  {
    hide IsSpace, TrimStart, Printable, ParseAgentProfileTag, StripNotice;
    ParsedTagPrintable(raw, REF_MARKER);
    ParsedTagPrintable(raw, BLOCK_MARKER);
    if IndexOf(raw, BODY_END) >= 0 {
      TrimStartSpec(raw[IndexOf(raw, BODY_END) + |BODY_END|..]);
    }
    if IndexOf(raw, BLOCK_END) >= 0 {
      TrimStartSpec(raw[IndexOf(raw, BLOCK_END) + |BLOCK_END|..]);
    }
    if IndexOf(raw, "]") >= 0 {
      NoticeLeftTrimmed(raw[IndexOf(raw, "]") + 1..]);
    }
  }

  lemma NoticeLeftTrimmed(raw: string)
    ensures LeftTrimmed(StripNotice(raw))
  {
    hide IsSpace, TrimStart;
    TrimStartSpec(raw);
    var trimmed := TrimStart(raw);
    if IndexOf(trimmed, NOTE_END) >= 0 {
      TrimStartSpec(trimmed[IndexOf(trimmed, NOTE_END) + |NOTE_END|..]);
    }
  }

  // ----- parsing what was printed -----

  lemma LiteralPeels(literal: string, rest: string)
    ensures AfterLiteral(literal + rest, literal) == Some(rest)
  {
    assert (literal + rest)[..|literal|] == literal;
  }

  lemma SpacePeels(rest: string)
    requires LeftTrimmed(rest)
    ensures AfterSpaces(" " + rest) == Some(rest)
  {
    assert (" " + rest)[1..] == rest;
    assert TrimStart(rest) == rest;
  }

  lemma {:induction false} WordStops(word: string, rest: string)
    requires forall i :: 0 <= i < |word| ==> !IsSpace(word[i]) && word[i] != ']'
    requires rest == "" || IsSpace(rest[0]) || rest[0] == ']'
    ensures WordLength(word + rest) == |word|
  {
    if word != "" {
      assert (word + rest)[1..] == word[1..] + rest;
      WordStops(word[1..], rest);
    } else {
      assert word + rest == rest;
    }
  }

  lemma {:induction false} BracketStops(text: string, rest: string)
    requires (forall i :: 0 <= i < |text| ==> text[i] != ']') && (rest == "" || rest[0] == ']')
    ensures BracketFree(text + rest) == |text|
  {
    if text != "" {
      assert (text + rest)[1..] == text[1..] + rest;
      BracketStops(text[1..], rest);
    } else {
      assert text + rest == rest;
    }
  }

  lemma PathParses(path: string, rest: string)
    requires path != "" && Trim(path) == path && forall i :: 0 <= i < |path| ==> path[i] != ']'
    ensures ParsePath(PathTag(path) + rest) == Some(path)
  {
    var s2 := path + ("]" + rest);
    var s1 := "path=" + s2;
    assert PathTag(path) + rest == " " + s1;
    SpacePeels(s1);
    LiteralPeels("path=", s2);
    BracketStops(path, "]" + rest);
    assert s2[..|path|] == path;
  }

  lemma NameParses(source: Source, r: Reference, rest: string)
    requires Printable(r)
    ensures ParseName(source, NameTag(r.name, r.path) + rest) == Some(Reference(source, r.name, r.path))
  {
    hide ParsePath;
    var s3 := PathTag(r.path) + rest;
    var s2 := r.name + s3;
    var s1 := "name=" + s2;
    assert NameTag(r.name, r.path) + rest == " " + s1;
    SpacePeels(s1);
    LiteralPeels("name=", s2);
    assert s3[0] == ' ';
    WordStops(r.name, s3);
    assert s2[..|r.name|] == r.name && s2[|r.name|..] == s3;
    PathParses(r.path, rest);
  }

  lemma SourceParses(source: Source, rest: string)
    ensures SourceOf(SourceName(source) + rest) == Some(source)
    ensures (SourceName(source) + rest)[|SourceName(source)|..] == rest
  {
    var s := SourceName(source) + rest;
    assert s[..|SourceName(source)|] == SourceName(source);
    assert s[0] == SourceName(source)[0];
  }

  /** Printing and parsing the tag undo each other on every printable reference. */
  lemma TagRoundTrip(r: Reference, rest: string)
    requires Printable(r)
    ensures ParseAgentProfileTag(Tag(r) + rest, REF_MARKER) == Some(r)
  {
    hide ParseName, Printable, NameTag;
    var s4 := NameTag(r.name, r.path) + rest;
    var s3 := SourceName(r.source) + s4;
    var s2 := "source=" + s3;
    var s1 := " " + s2;
    assert Tag(r) + rest == ("[" + REF_MARKER) + s1;
    LiteralPeels("[" + REF_MARKER, s1);
    SpacePeels(s2);
    LiteralPeels("source=", s3);
    SourceParses(r.source, s4);
    NameParses(r.source, r, rest);
  }

  lemma NotABlock(r: Reference, rest: string)
    ensures ParseAgentProfileTag(Tag(r) + rest, BLOCK_MARKER) == None
  {
    var raw := Tag(r) + rest;
    assert raw[15] == 'R';
    assert ("[" + BLOCK_MARKER)[15] == 'B';
    var prefix := "[" + BLOCK_MARKER;
    assert |prefix| <= |raw| ==> raw[..|prefix|][15] == raw[15];
  }

  // ----- where markers can occur in a printed prompt -----

  /** A body marker: brackets around characters that are neither brackets, blanks, `=` nor line ends. */
  predicate MarkerShape(m: string) {
    && |m| > 20 && m[0] == '[' && m[|m| - 1] == ']' && m[15] == 'B'
    && forall i :: 0 < i < |m| - 1 ==> m[i] != '[' && m[i] != ']' && m[i] != ' ' && m[i] != '=' && m[i] != '\n' && m[i] != '/'
  }

  lemma MarkersShaped()
    ensures MarkerShape(BODY_BEGIN) && MarkerShape(BODY_END) && BODY_BEGIN != BODY_END
  {
  }

  /** The path ends in the marker but for its closing bracket, which the tag then supplies. */
  predicate EndsOpen(path: string, m: string)
    requires m != ""
  {
    |m| - 1 <= |path| && path[|path| - (|m| - 1)..] == m[..|m| - 1]
  }

  predicate Lacks(s: string, c: char) {
    forall i :: 0 <= i < |s| ==> s[i] != c
  }

  lemma LacksConcat(a: string, b: string, c: char)
    requires Lacks(a, c) && Lacks(b, c)
    ensures Lacks(a + b, c)
  {
  }

  lemma NoteBodyHasNoBracket()
    ensures Lacks(NoteBody(), '[') && NoteBody() != "" && IsSpace(NoteBody()[0])
  {
    assert Lacks(NOTE_TEXT, '[');
  }

  /** A text with two brackets, neither of them opening a body marker. */
  lemma TwoBrackets(front: string, back: string, m: string, i: nat)
    requires Lacks(front, '[') && Lacks(back, '[') && MarkerShape(m)
    requires |front| > 14 && front[14] == 'R' && back != "" && back[0] == '/'
    ensures !Occurs("\n[" + front + "[" + back, m, i)
  {
    var s := "\n[" + front + "[" + back;
    assert forall k :: 0 <= k < |s| && s[k] == '[' ==> k == 1 || k == 2 + |front|;
    assert s[16] == front[14] && s[3 + |front|] == back[0];
    if Occurs(s, m, i) {
      OccursAt(s, m, i, 0);
      if i == 1 {
        OccursAt(s, m, i, 15);
        assert false;
      } else {
        OccursAt(s, m, i, 1);
        assert false;
      }
    }
  }

  /** The fixed text between tag and prompt contains no body marker. */
  lemma InterludeFree(m: string, i: nat)
    requires MarkerShape(m)
    ensures !Occurs(Interlude(), m, i)
  {
    hide NoteBody, MarkerShape;
    var begin, end := NOTE_BEGIN[1..], NOTE_END[1..];
    assert NOTE_BEGIN == "[" + begin && NOTE_END == "[" + end;
    assert Lacks(begin, '[') && Lacks(end, '[') && |begin| > 14 && begin[14] == 'R' && end[0] == '/';
    NoteBodyHasNoBracket();
    InterludeByBrackets(begin, NoteBody(), end, m, i);
  }

  lemma InterludeByBrackets(begin: string, body: string, end: string, m: string, i: nat)
    requires NOTE_BEGIN == "[" + begin && NOTE_END == "[" + end && body == NoteBody()
    requires Lacks(begin, '[') && Lacks(body, '[') && Lacks(end, '[') && MarkerShape(m)
    requires |begin| > 14 && begin[14] == 'R' && end != "" && end[0] == '/'
    ensures !Occurs(Interlude(), m, i)
  {
    hide NoteBody, MarkerShape;
    var tail := "\n\n";
    var front, back := begin + body, end + tail;
    LacksConcat(begin, body, '[');
    LacksConcat(end, tail, '[');
    assert Interlude() == "\n[" + front + "[" + back;
    TwoBrackets(front, back, m, i);
  }

  lemma OccursAt(s: string, m: string, i: nat, k: nat)
    requires Occurs(s, m, i) && k < |m|
    ensures i + k < |s| && s[i + k] == m[k]
  {
    assert s[i..i + |m|][k] == s[i + k];
  }

  /** A marker in the tag can only be its end. */
  lemma OccursInTag(r: Reference, m: string, i: nat)
    requires MarkerShape(m) && Printable(r)
    ensures Occurs(Tag(r), m, i) <==> EndsOpen(r.path, m) && i + |m| == |Tag(r)|
  {
    TagHeadLacksClose(r);
    TagShape(r);
    hide *;
    PathLacksClose(r);
    if Occurs(Tag(r), m, i) {
      MarkerInText(TagHead(r), r.path, m, i);
    }
    if EndsOpen(r.path, m) && i + |m| == |Tag(r)| {
      MarkerEndsText(TagHead(r), r.path, m, i);
    }
  }

  lemma PathLacksClose(r: Reference)
    requires Printable(r)
    ensures Lacks(r.path, ']')
  {
  }

  lemma MarkerInText(head: string, path: string, m: string, i: nat)
    requires Lacks(head, ']') && Lacks(path, ']') && head != "" && head[|head| - 1] == '='
    requires MarkerShape(m) && Occurs(head + path + "]", m, i)
    ensures EndsOpen(path, m) && i + |m| == |head + path + "]"|
  {
    var t := head + path + "]";
    OccursAt(t, m, i, |m| - 1);
    assert i + |m| == |t| by {
      assert forall k :: 0 <= k < |t| - 1 ==> t[k] == (head + path)[k];
    }
    if i < |head| {
      OccursAt(t, m, i, |head| - 1 - i);
      assert false;
    }
    PathSuffix(head, path, |m| - 1);
    assert t[i..] == m && t[i..|t| - 1] == m[..|m| - 1];
  }

  lemma MarkerEndsText(head: string, path: string, m: string, i: nat)
    requires MarkerShape(m) && EndsOpen(path, m) && i + |m| == |head + path + "]"|
    ensures Occurs(head + path + "]", m, i)
  {
    var t := head + path + "]";
    PathSuffix(head, path, |m| - 1);
    assert m == m[..|m| - 1] + "]" == t[i..|t| - 1] + "]" == t[i..i + |m|];
  }

  lemma PathSuffix(head: string, path: string, k: nat)
    requires k <= |path|
    ensures var t := head + path + "]"; t[|t| - 1 - k..|t| - 1] == path[|path| - k..]
  {
  }

  function TagHead(r: Reference): string {
    "[" + REF_MARKER + " source=" + SourceName(r.source) + " name=" + r.name + " path="
  }

  lemma TagHeadLacksClose(r: Reference)
    requires Printable(r)
    ensures Lacks(TagHead(r), ']') && TagHead(r)[|TagHead(r)| - 1] == '='
  {
    var a, b := "[" + REF_MARKER + " source=", " name=";
    assert Lacks(a, ']') && Lacks(SourceName(r.source), ']') && Lacks(b, ']') && Lacks(" path=", ']');
    hide SourceName;
    LacksConcat(a, SourceName(r.source), ']');
    LacksConcat(a + SourceName(r.source), b, ']');
    LacksConcat(a + SourceName(r.source) + b, r.name, ']');
    LacksConcat(a + SourceName(r.source) + b + r.name, " path=", ']');
  }

  /** The tag is a head ending in `=` without a closing bracket, the path, and a bracket. */
  lemma TagShape(r: Reference)
    requires Printable(r)
    ensures Tag(r) == TagHead(r) + r.path + "]" && TagHead(r) != "" && TagHead(r)[|TagHead(r)| - 1] == '='
    ensures forall k :: 0 <= k < |Tag(r)| - 1 ==> Tag(r)[k] != ']'
  {
    hide SourceName;
    TagHeadLacksClose(r);
    assert Tag(r) == TagHead(r) + r.path + "]";
    assert Lacks(r.path, ']');
    hide TagHead, Tag;
    LacksConcat(TagHead(r), r.path, ']');
  }

  /** The body markers of a printed prompt are those of the prompt, and at most one made by the path. */
  lemma OccursInPrinted(r: Reference, prompt: string, m: string, i: nat)
    requires MarkerShape(m) && Printable(r)
    ensures var raw := BuildPromptWithAgentProfileReference(prompt, r);
            var front := |Tag(r)| + |Interlude()|;
            Occurs(raw, m, i) <==>
              || (EndsOpen(r.path, m) && i + |m| == |Tag(r)|)
              || (front <= i && Occurs(prompt, m, i - front))
  {
    hide Printable, Tag, Interlude, EndsOpen, Occurs, TagHead;
    OccursInTag(r, m, i);
    InterludeEnds();
    TagShape(r);
    OccursInConcat(Tag(r), Interlude() + prompt, m, i);
    if |Tag(r)| <= i {
      InterludeFree(m, i - |Tag(r)|);
      OccursInConcat(Interlude(), prompt, m, i - |Tag(r)|);
    }
    if EndsOpen(r.path, m) && i + |m| == |Tag(r)| {
      assert Occurs(Tag(r), m, i);
    }
  }

  lemma InterludeEnds()
    ensures Interlude() != "" && Interlude()[0] == '\n' && Interlude()[|Interlude()| - 1] == '\n'
  {
    hide NoteBody;
  }

  /** A marker does not straddle a boundary at a line end. */
  lemma OccursInConcat(a: string, b: string, m: string, i: nat)
    requires MarkerShape(m) && a != "" && (a[|a| - 1] == '\n' || (b != "" && b[0] == '\n'))
    ensures Occurs(a + b, m, i) <==> Occurs(a, m, i) || (|a| <= i && Occurs(b, m, i - |a|))
  {
    var s := a + b;
    if Occurs(s, m, i) && i < |a| {
      if |a| < i + |m| {
        OccursAt(s, m, i, |a| - i);
        OccursAt(s, m, i, |a| - 1 - i);
        assert false;
      }
      assert a[i..i + |m|] == s[i..i + |m|];
    }
    if Occurs(a, m, i) {
      assert a[i..i + |m|] == s[i..i + |m|];
    }
    if |a| <= i && i - |a| + |m| <= |b| {
      assert b[i - |a|..i - |a| + |m|] == s[i..i + |m|];
    }
  }

  // ----- the round trip -----

  lemma FirstOccurrence(s: string, m: string, k: nat)
    requires Occurs(s, m, k) && forall i: nat :: i < k ==> !Occurs(s, m, i)
    ensures IndexOf(s, m) == k
  {
  }

  lemma OpenMarkerFits(r: Reference, m: string)
    requires MarkerShape(m) && Printable(r)
    ensures m != "" && |Interlude()| > 0 && (EndsOpen(r.path, m) ==> |m| <= |Tag(r)|)
  {
    TagShape(r);
  }

  lemma PrintedIndex(r: Reference, prompt: string, m: string)
    requires MarkerShape(m) && Printable(r)
    ensures IndexOf(BuildPromptWithAgentProfileReference(prompt, r), m)
         == if EndsOpen(r.path, m) then |Tag(r)| - |m|
            else if IndexOf(prompt, m) < 0 then -1
            else |Tag(r)| + |Interlude()| + IndexOf(prompt, m)
  {
    hide *;
    OpenMarkerFits(r, m);
    var raw := BuildPromptWithAgentProfileReference(prompt, r);
    forall i: nat
      ensures Occurs(raw, m, i) <==>
                (EndsOpen(r.path, m) && i + |m| == |Tag(r)|)
                || (|Tag(r)| + |Interlude()| <= i && Occurs(prompt, m, i - (|Tag(r)| + |Interlude()|)))
    {
      OccursInPrinted(r, prompt, m, i);
    }
    IndexBehind(raw, prompt, m, |Tag(r)| + |Interlude()|, |Tag(r)| - |m|, EndsOpen(r.path, m));
  }

  /** Where a text is found first when it occurs behind a front as in `rest`, and in the front only perhaps at `at`. */
  lemma IndexBehind(raw: string, rest: string, m: string, front: nat, at: int, alsoAt: bool)
    requires m != "" && at < front && (alsoAt ==> 0 <= at)
    requires forall i: nat :: Occurs(raw, m, i) <==> (alsoAt && i == at) || (front <= i && Occurs(rest, m, i - front))
    ensures IndexOf(raw, m) == if alsoAt then at else if IndexOf(rest, m) < 0 then -1 else front + IndexOf(rest, m)
  {
    hide Occurs;
    var k := IndexOf(rest, m);
    if alsoAt {
      FirstOccurrence(raw, m, at);
    } else if k >= 0 {
      assert Occurs(raw, m, front + k);
      FirstOccurrence(raw, m, front + k);
    }
  }

  /** The printed prompt reads as a profile body, by the prompt's own markers or one the path completes. */
  predicate HidesReference(path: string, prompt: string) {
    if EndsOpen(path, BODY_BEGIN) then IndexOf(prompt, BODY_END) >= 0
    else !EndsOpen(path, BODY_END) && HasBody(prompt)
  }

  lemma NotBothOpen(path: string)
    ensures !(EndsOpen(path, BODY_BEGIN) && EndsOpen(path, BODY_END))
  {
    var a, b := BODY_BEGIN[..|BODY_BEGIN| - 1], BODY_END[..|BODY_END| - 1];
    assert a[|a| - 1] == 'N' && b[|b| - 1] == 'D';
    if EndsOpen(path, BODY_BEGIN) {
      assert path[|path| - 1] == path[|path| - |a|..][|a| - 1];
    }
    if EndsOpen(path, BODY_END) {
      assert path[|path| - 1] == path[|path| - |b|..][|b| - 1];
    }
  }

  lemma PrintedHasBody(r: Reference, prompt: string)
    requires Printable(r)
    ensures var raw := BuildPromptWithAgentProfileReference(prompt, r);
            && (HasBody(raw) <==> HidesReference(r.path, prompt))
            && (HasBody(raw) ==> IndexOf(prompt, BODY_END) >= 0 && AfterMarker(raw, BODY_END) == AfterMarker(prompt, BODY_END))
  {
    hide *;
    MarkersShaped();
    NotBothOpen(r.path);
    PrintedIndexed(r, prompt, BODY_BEGIN);
    PrintedIndexed(r, prompt, BODY_END);
    HasBodyByIndex(r, prompt);
    PrintedConcat(r, prompt);
    if HasBody(BuildPromptWithAgentProfileReference(prompt, r)) {
      AfterMarkerShifted(Tag(r) + Interlude(), prompt, BODY_END);
    }
  }

  /** Where a marker is found in the printed prompt. */
  predicate Indexed(r: Reference, prompt: string, m: string)
    requires m != ""
  {
    IndexOf(BuildPromptWithAgentProfileReference(prompt, r), m)
    == if EndsOpen(r.path, m) then |Tag(r)| - |m|
       else if IndexOf(prompt, m) < 0 then -1
       else |Tag(r)| + |Interlude()| + IndexOf(prompt, m)
  }

  lemma PrintedIndexed(r: Reference, prompt: string, m: string)
    requires MarkerShape(m) && Printable(r)
    ensures m != "" && Indexed(r, prompt, m) && (EndsOpen(r.path, m) ==> |m| <= |Tag(r)|)
  {
    TagShape(r);
    hide Printable, Tag, TagHead, Interlude, IndexOf;
    PrintedIndex(r, prompt, m);
  }

  lemma PrintedConcat(r: Reference, prompt: string)
    ensures BuildPromptWithAgentProfileReference(prompt, r) == Tag(r) + Interlude() + prompt
  {
    hide Tag, Interlude;
  }

  lemma AfterMarkerShifted(front: string, prompt: string, m: string)
    requires IndexOf(prompt, m) >= 0 && IndexOf(front + prompt, m) == |front| + IndexOf(prompt, m)
    ensures AfterMarker(front + prompt, m) == AfterMarker(prompt, m)
  {
    hide IndexOf, TrimStart;
    var e := IndexOf(prompt, m);
    IndexWithin(prompt, m);
    assert (front + prompt)[|front| + e + |m|..] == prompt[e + |m|..];
  }

  lemma IndexWithin(s: string, m: string)
    ensures IndexOf(s, m) + |m| <= |s| || IndexOf(s, m) < 0
  {
  }

  lemma HasBodyByIndex(r: Reference, prompt: string)
    requires Indexed(r, prompt, BODY_BEGIN) && Indexed(r, prompt, BODY_END)
    requires !(EndsOpen(r.path, BODY_BEGIN) && EndsOpen(r.path, BODY_END))
    requires EndsOpen(r.path, BODY_BEGIN) ==> |BODY_BEGIN| <= |Tag(r)|
    ensures var raw := BuildPromptWithAgentProfileReference(prompt, r);
            && (HasBody(raw) <==> HidesReference(r.path, prompt))
            && (HasBody(raw) ==> IndexOf(prompt, BODY_END) >= 0
                                 && IndexOf(raw, BODY_END) == |Tag(r)| + |Interlude()| + IndexOf(prompt, BODY_END))
  {
    hide BuildPromptWithAgentProfileReference, Tag, Interlude, EndsOpen, IndexOf;
  }

  lemma TrimStartSkips(blank: string, rest: string)
    requires forall i :: 0 <= i < |blank| ==> IsSpace(blank[i])
    ensures TrimStart(blank + rest) == TrimStart(rest)
    decreases |blank|
  {
    if blank == "" {
      assert blank + rest == rest;
    } else {
      assert (blank + rest)[1..] == blank[1..] + rest;
      TrimStartSkips(blank[1..], rest);
    }
  }

  /** The note is stripped whole, whatever the prompt after it contains. */
  lemma NoticeStripped(prompt: string)
    ensures StripNotice(Interlude() + prompt) == TrimStart(prompt)
  {
    NoteBodyHasNoBracket();
    LineEndsAreSpace();
    InterludeUnfolds(prompt);
    hide *;
    var rest := "\n\n" + prompt;
    var body := NoteBody();
    var trimmed := NOTE_BEGIN + (body + (NOTE_END + rest));
    TrimStartSkips("\n", trimmed);
    NoteBeginsTrimmed(body + (NOTE_END + rest));
    NoteStripped(body, rest);
    TrimStartSkips("\n\n", prompt);
    StripOfTrimmed(Interlude() + prompt, trimmed);
  }

  lemma InterludeUnfolds(prompt: string)
    ensures Interlude() + prompt == "\n" + (NOTE_BEGIN + (NoteBody() + (NOTE_END + ("\n\n" + prompt))))
  {
    hide NoteBody;
  }

  lemma StripOfTrimmed(raw: string, trimmed: string)
    requires TrimStart(raw) == trimmed == TrimStart(trimmed)
    ensures StripNotice(raw) == StripNotice(trimmed)
  {
  }

  lemma NoteStripped(body: string, rest: string)
    requires Lacks(body, '[')
    ensures var trimmed := NOTE_BEGIN + (body + (NOTE_END + rest));
            TrimStart(trimmed) == trimmed && StripNotice(trimmed) == TrimStart(rest)
  {
    hide TrimStart, IsSpace, Lacks;
    var trimmed := NOTE_BEGIN + (body + (NOTE_END + rest));
    NoteBeginsTrimmed(body + (NOTE_END + rest));
    assert trimmed[..|NOTE_BEGIN|] == NOTE_BEGIN;
    var at := |NOTE_BEGIN| + |body|;
    assert trimmed[at..at + |NOTE_END|] == NOTE_END;
    NoEarlierNoteEnd(body, rest);
    FirstOccurrence(trimmed, NOTE_END, at);
    assert trimmed[at + |NOTE_END|..] == rest;
  }

  lemma LineEndsAreSpace()
    ensures IsSpace('\n')
  {
  }

  lemma NoteBeginsTrimmed(rest: string)
    ensures TrimStart(NOTE_BEGIN + rest) == NOTE_BEGIN + rest
  {
  }

  lemma NoEarlierNoteEnd(body: string, rest: string)
    requires Lacks(body, '[')
    ensures forall i: nat :: i < |NOTE_BEGIN| + |body| ==> !Occurs(NOTE_BEGIN + (body + (NOTE_END + rest)), NOTE_END, i)
  {
    var s := NOTE_BEGIN + (body + (NOTE_END + rest));
    assert Lacks(NOTE_BEGIN[1..], '[');
    forall i: nat | i < |NOTE_BEGIN| + |body| ensures !Occurs(s, NOTE_END, i) {
      assert s[1] == 'A';
      assert s[i] == '[' ==> i == 0 by {
        assert 0 < i < |NOTE_BEGIN| ==> s[i] == NOTE_BEGIN[1..][i - 1];
        assert |NOTE_BEGIN| <= i ==> s[i] == body[i - |NOTE_BEGIN|];
      }
      if Occurs(s, NOTE_END, i) {
        OccursAt(s, NOTE_END, i, 0);
        OccursAt(s, NOTE_END, i, 1);
        assert false;
      }
    }
  }

  lemma TagEndsFirst(r: Reference, rest: string)
    requires Printable(r)
    ensures IndexOf(Tag(r) + rest, "]") == |Tag(r)| - 1
  {
    TagShape(r);
    hide Printable, Tag, TagHead;
    var s, k := Tag(r) + rest, |Tag(r)| - 1;
    assert s[k..k + 1] == "]";
    forall i: nat | i < k ensures !Occurs(s, "]", i) {
      assert i + 1 <= |s| ==> s[i..i + 1][0] == Tag(r)[i];
    }
    FirstOccurrence(s, "]", k);
  }

  /** What parsing a printed prompt gives, for every printable reference and every prompt. */
  lemma PrintedParses(r: Reference, prompt: string)
    requires Printable(r)
    ensures ParseAgentProfilePrompt(BuildPromptWithAgentProfileReference(prompt, r))
         == if HidesReference(r.path, prompt) && IndexOf(prompt, BODY_END) >= 0
            then ByBootstrap(r, AfterMarker(prompt, BODY_END))
            else ByReference(r, TrimStart(prompt))
    ensures HidesReference(r.path, prompt) ==> IndexOf(prompt, BODY_END) >= 0
  {
    var raw := BuildPromptWithAgentProfileReference(prompt, r);
    PrintedHasBody(r, prompt);
    var rest := Interlude() + prompt;
    TagRoundTrip(r, rest);
    NotABlock(r, rest);
    TagEndsFirst(r, rest);
    NoticeStripped(prompt);
    hide Printable, Tag, Interlude, EndsOpen, ParseAgentProfileTag, StripNotice, AfterMarker, HasBody, IndexOf;
    assert raw[|Tag(r)|..] == rest;
  }

  /**
   * Parsing returns exactly what was printed if and only if the reference is printable, the
   * prompt begins without white space, and the printed text does not read as a profile body.
   */
  lemma RoundTripIff(r: Reference, prompt: string)
    ensures ParseAgentProfilePrompt(BuildPromptWithAgentProfileReference(prompt, r)) == ByReference(r, prompt)
            <==> Printable(r) && LeftTrimmed(prompt) && !HidesReference(r.path, prompt)
  {
    StrippedLeftTrimmed(BuildPromptWithAgentProfileReference(prompt, r));
    if Printable(r) {
      PrintedParses(r, prompt);
      TrimStartSpec(prompt);
    }
  }

  /** An end marker right behind another marker is found behind it. */
  lemma EndMarkerBehind(rest: string)
    ensures var s := BODY_BEGIN + (BODY_END + rest);
            && IndexOf(s, BODY_BEGIN) == 0 && IndexOf(s, BODY_END) == |BODY_BEGIN|
            && s[|BODY_BEGIN| + |BODY_END|..] == rest
  {
    MarkersShaped();
    var s := BODY_BEGIN + (BODY_END + rest);
    assert s[..|BODY_BEGIN|] == BODY_BEGIN;
    assert s[|BODY_BEGIN|..|BODY_BEGIN| + |BODY_END|] == BODY_END;
    FirstOccurrence(s, BODY_BEGIN, 0);
    forall i: nat | i < |BODY_BEGIN| ensures !Occurs(s, BODY_END, i) {
      assert s[i..i + |BODY_END|][0] == s[i] && s[i..i + |BODY_END|][20] == s[i + 20];
    }
    FirstOccurrence(s, BODY_END, |BODY_BEGIN|);
  }

  /** A path that ends in the begin marker but for its bracket, in a reference that can be printed. */
  function OpenMarkerReference(source: Source): Reference {
    Reference(source, "n", BODY_BEGIN[..|BODY_BEGIN| - 1])
  }

  lemma OpenMarkerIsPrintable(source: Source)
    ensures var r := OpenMarkerReference(source); Printable(r) && EndsOpen(r.path, BODY_BEGIN)
  {
    hide EndsOpen;
    MarkersShaped();
    var path := BODY_BEGIN[..|BODY_BEGIN| - 1];
    TrimmedIff(path);
    WholeEndsOpen(BODY_BEGIN);
  }

  lemma WholeEndsOpen(m: string)
    requires m != ""
    ensures EndsOpen(m[..|m| - 1], m)
  {
    assert m[..|m| - 1][0..] == m[..|m| - 1];
  }

  lemma MarkerAtOnce(m: string)
    requires m != ""
    ensures IndexOf(m, m) == 0 && AfterMarker(m, m) == ""
  {
    assert m[0..|m|] == m && m[|m|..] == "";
    FirstOccurrence(m, m, 0);
  }

  /** With such a path the printed prompt is read as a profile body, and lost. */
  lemma OpenMarkerLosesThePrompt(source: Source)
    ensures var r := OpenMarkerReference(source);
            && Printable(r) && LeftTrimmed(BODY_END)
            && ParseAgentProfilePrompt(BuildPromptWithAgentProfileReference(BODY_END, r)) == ByBootstrap(r, "")
  {
    hide Printable, EndsOpen, IndexOf, AfterMarker, ParseAgentProfilePrompt, BuildPromptWithAgentProfileReference, HasBody;
    hide OpenMarkerReference;
    OpenMarkerIsPrintable(source);
    MarkerAtOnce(BODY_END);
    PrintedParses(OpenMarkerReference(source), BODY_END);
  }

  // ----- the forms of a tag and of a prompt -----

  /** `t` is `s` without the blanks in front of it. */
  ghost predicate IsBehindBlanks(s: string, t: string) {
    |t| <= |s| && t == s[|s| - |t|..] && LeftTrimmed(t) && forall i :: 0 <= i < |s| - |t| ==> IsSpace(s[i])
  }

  /** At least one blank, then `literal`, then `t`. */
  ghost predicate ReadsKey(s: string, literal: string, t: string) {
    exists u :: |u| < |s| && IsBehindBlanks(s, u) && u == literal + t
  }

  /** Blanks, `path=`, a text that is not blank, and the first `]`. */
  ghost predicate ReadsPath(s: string, path: string) {
    exists text, padded, rest, i ::
      && ReadsKey(s, "path=", text) && text == padded + ("]" + rest) && ']' !in padded
      && IsTrimmed(padded, path, i) && path != ""
  }

  ghost predicate IsWord(s: string) {
    s != "" && forall i :: 0 <= i < |s| ==> !IsSpace(s[i]) && s[i] != ']'
  }

  /** Blanks, `name=`, a word, and the path. */
  ghost predicate ReadsName(s: string, name: string, path: string) {
    exists rest :: ReadsKey(s, "name=", name + rest) && IsWord(name) && ReadsPath(rest, path)
  }

  /** The bracket with the marker, and one of the three sources, a name and a path in it. */
  ghost predicate ReadsTag(raw: string, marker: string, r: Reference) {
    exists front, rest ::
      && raw == "[" + marker + front && ReadsName(rest, r.name, r.path)
      && match r.source
         case Bundled => ReadsKey(front, "source=", "bundled" + rest)
         case Global => ReadsKey(front, "source=", "global" + rest)
         case Workspace => ReadsKey(front, "source=", "workspace" + rest)
  }

  ghost predicate FirstAt(s: string, m: string, k: nat) {
    Occurs(s, m, k) && forall j: nat :: j < k ==> !Occurs(s, m, j)
  }

  /** `t` is what follows the first `m`, without the blanks in front. */
  ghost predicate Behind(s: string, m: string, t: string) {
    exists k: nat :: FirstAt(s, m, k) && IsBehindBlanks(s[k + |m|..], t)
  }

  ghost predicate BodyIn(raw: string) {
    exists b: nat, e: nat :: b < e && FirstAt(raw, "[AGENT_PROFILE_BODY_BEGIN]", b) && FirstAt(raw, "[AGENT_PROFILE_BODY_END]", e)
  }

  ghost predicate IsBlock(raw: string) {
    Holds(raw, "[AGENT_PROFILE_END]") && exists r :: ReadsTag(raw, "AGENT_PROFILE_BEGIN", r)
  }

  ghost predicate IsReferring(raw: string) {
    exists r :: ReadsTag(raw, "AGENT_PROFILE_REF", r)
  }

  /** `t` is `s` without a note that it starts with, and without the blanks in front. */
  ghost predicate WithoutNote(s: string, t: string) {
    exists u :: IsBehindBlanks(s, u)
                && if StartsWith(u, "[AGENT_PROFILE_REF_NOTE]") && Holds(u, "[/AGENT_PROFILE_REF_NOTE]")
                   then Behind(u, "[/AGENT_PROFILE_REF_NOTE]", t) else t == u
  }

  /** What a prompt is: a reference with an expanded body, an expanded block, a bare reference, or none of these. */
  ghost predicate IsParsed(raw: string, p: Parsed) {
    match p
    case ByBootstrap(r, prompt) =>
      ReadsTag(raw, "AGENT_PROFILE_REF", r) && BodyIn(raw) && Behind(raw, "[AGENT_PROFILE_BODY_END]", prompt)
    case ByBlock(r, prompt) =>
      && !(IsReferring(raw) && BodyIn(raw)) && ReadsTag(raw, "AGENT_PROFILE_BEGIN", r)
      && Behind(raw, "[AGENT_PROFILE_END]", prompt)
    case ByReference(r, prompt) =>
      && ReadsTag(raw, "AGENT_PROFILE_REF", r) && !BodyIn(raw) && !IsBlock(raw)
      && exists k: nat :: FirstAt(raw, "]", k) && WithoutNote(raw[k + 1..], prompt)
    case Unmatched(prompt) =>
      prompt == raw && !IsBlock(raw) && !(IsReferring(raw) && Holds(raw, "]"))
  }

  lemma LiteralIff(s: string, literal: string, t: string)
    ensures AfterLiteral(s, literal) == Some(t) <==> s == literal + t
  {
    if StartsWith(s, literal) {
      assert s == literal + s[|literal|..];
    }
    if s == literal + t {
      LiteralPeels(literal, t);
    }
  }

  lemma BehindBlanksIff(s: string, t: string)
    ensures IsBehindBlanks(s, t) <==> t == TrimStart(s)
  {
    hide IsSpace;
    TrimStartSpec(s);
    var u := TrimStart(s);
    assert u != "" ==> u[0] == s[|s| - |u|];
    if IsBehindBlanks(s, t) {
      assert t != "" ==> t[0] == s[|s| - |t|];
      assert |t| == |u|;
    }
  }

  lemma ShorterIff(s: string)
    ensures |TrimStart(s)| < |s| <==> s != "" && IsSpace(s[0])
  {
    hide IsSpace;
    TrimStartSpec(s);
  }

  lemma KeyIff(s: string, literal: string, t: string)
    ensures ReadsKey(s, literal, t) <==> AfterSpaces(s).Some? && AfterLiteral(AfterSpaces(s).value, literal) == Some(t)
  {
    BehindBlanksIff(s, TrimStart(s));
    ShorterIff(s);
    LiteralIff(TrimStart(s), literal, t);
    hide IsSpace, TrimStart, IsBehindBlanks, AfterLiteral;
    if ReadsKey(s, literal, t) {
      var u :| |u| < |s| && IsBehindBlanks(s, u) && u == literal + t;
      BehindBlanksIff(s, u);
    }
  }

  lemma PathIff(s: string, path: string)
    ensures ReadsPath(s, path) <==> ParsePath(s) == Some(path)
  {
    hide IsSpace, Trim, TrimStart, ReadsKey, AfterSpaces, AfterLiteral, IsTrimmed;
    if ParsePath(s) == Some(path) {
      var s2 := AfterLiteral(AfterSpaces(s).value, "path=").value;
      KeyIff(s, "path=", s2);
      var k := BracketFree(s2);
      BracketEnds(s2);
      var i := TrimIs(s2[..k]);
      assert s2 == s2[..k] + ("]" + s2[k + 1..]);
      assert ']' !in s2[..k];
    }
    if ReadsPath(s, path) {
      var text, padded, rest, i :| ReadsKey(s, "path=", text) && text == padded + ("]" + rest) && ']' !in padded
                                   && IsTrimmed(padded, path, i) && path != "";
      KeyIff(s, "path=", text);
      BracketStops(padded, "]" + rest);
      assert text[..|padded|] == padded;
      var j := TrimIs(padded);
      TrimmedUnique(padded, path, i, Trim(padded), j);
    }
  }

  lemma {:induction false} BracketEnds(s: string)
    ensures BracketFree(s) < |s| ==> s[BracketFree(s)] == ']'
  {
    if s != "" && s[0] != ']' {
      BracketEnds(s[1..]);
    }
  }

  lemma {:induction false} WordEnds(s: string)
    ensures WordLength(s) < |s| ==> IsSpace(s[WordLength(s)]) || s[WordLength(s)] == ']'
  {
    hide IsSpace;
    if s != "" && !IsSpace(s[0]) && s[0] != ']' {
      WordEnds(s[1..]);
    }
  }

  lemma PathStartsBlank(s: string, path: string)
    requires ReadsPath(s, path)
    ensures s != "" && IsSpace(s[0])
  {
    PathIff(s, path);
  }

  lemma NameIff(source: Source, s: string, name: string, path: string)
    ensures ReadsName(s, name, path) <==> ParseName(source, s) == Some(Reference(source, name, path))
  {
    hide IsSpace, TrimStart, Trim, ReadsKey, AfterSpaces, AfterLiteral, ReadsPath, ParsePath;
    if ParseName(source, s) == Some(Reference(source, name, path)) {
      var s2 := AfterLiteral(AfterSpaces(s).value, "name=").value;
      var n := WordLength(s2);
      KeyIff(s, "name=", s2);
      PathIff(s2[n..], path);
      assert s2 == name + s2[n..];
    }
    if ReadsName(s, name, path) {
      var rest :| ReadsKey(s, "name=", name + rest) && IsWord(name) && ReadsPath(rest, path);
      KeyIff(s, "name=", name + rest);
      PathStartsBlank(rest, path);
      PathIff(rest, path);
      WordStops(name, rest);
      assert (name + rest)[..|name|] == name && (name + rest)[|name|..] == rest;
    }
  }

  /** The tag of a text is what its brackets read as, and there is none exactly when they read as none. */
  lemma TagIff(raw: string, marker: string, r: Reference)
    ensures ReadsTag(raw, marker, r) <==> ParseAgentProfileTag(raw, marker) == Some(r)
  {
    hide IsSpace, TrimStart, Trim, ReadsKey, AfterSpaces, AfterLiteral, ReadsName, ParseName, WordLength;
    if ParseAgentProfileTag(raw, marker) == Some(r) {
      var front := AfterLiteral(raw, "[" + marker).value;
      var s3 := AfterLiteral(AfterSpaces(front).value, "source=").value;
      var rest := SourceRest(s3);
      LiteralIff(raw, "[" + marker, front);
      KeyIff(front, "source=", s3);
      ParsedSource(SourceOf(s3).value, rest, r);
      NameIff(r.source, rest, r.name, r.path);
    }
    if ReadsTag(raw, marker, r) {
      var front, rest :| raw == "[" + marker + front && ReadsName(rest, r.name, r.path)
                         && ReadsKey(front, "source=", SourceName(r.source) + rest);
      LiteralIff(raw, "[" + marker, front);
      KeyIff(front, "source=", SourceName(r.source) + rest);
      SourceParses(r.source, rest);
      NameIff(r.source, rest, r.name, r.path);
      assert (SourceName(r.source) + rest)[|SourceName(r.source)|..] == rest;
    }
  }

  lemma SourceRest(s: string) returns (rest: string)
    requires SourceOf(s).Some?
    ensures s == SourceName(SourceOf(s).value) + rest && rest == s[|SourceName(SourceOf(s).value)|..]
  {
    rest := s[|SourceName(SourceOf(s).value)|..];
  }

  lemma ParsedSource(source: Source, s: string, r: Reference)
    requires ParseName(source, s) == Some(r)
    ensures r.source == source
  {
  }

  lemma FirstIff(s: string, m: string, k: nat)
    ensures FirstAt(s, m, k) <==> IndexOf(s, m) == k
    ensures Holds(s, m) <==> IndexOf(s, m) >= 0
  {
    hide Occurs;
  }

  lemma BehindIs(s: string, m: string)
    requires IndexOf(s, m) >= 0
    ensures Behind(s, m, AfterMarker(s, m))
  {
    hide IndexOf, IsBehindBlanks, TrimStart;
    FirstIff(s, m, IndexOf(s, m));
    BehindBlanksIff(s[IndexOf(s, m) + |m|..], AfterMarker(s, m));
  }

  lemma BodyIff(raw: string)
    ensures BodyIn(raw) <==> HasBody(raw)
  {
    hide IndexOf, FirstAt;
    forall k: nat
      ensures FirstAt(raw, BODY_BEGIN, k) <==> IndexOf(raw, BODY_BEGIN) == k
      ensures FirstAt(raw, BODY_END, k) <==> IndexOf(raw, BODY_END) == k
    {
      FirstIff(raw, BODY_BEGIN, k);
      FirstIff(raw, BODY_END, k);
    }
    if HasBody(raw) {
      assert FirstAt(raw, BODY_BEGIN, IndexOf(raw, BODY_BEGIN)) && FirstAt(raw, BODY_END, IndexOf(raw, BODY_END));
    }
  }

  lemma NoteIs(s: string)
    ensures WithoutNote(s, StripNotice(s))
  {
    hide IndexOf, IsBehindBlanks, TrimStart, Holds, Behind, FirstAt, IsSpace, AfterMarker, StripNotice, StartsWith;
    var u := TrimStart(s);
    StripCases(s);
    BehindBlanksIff(s, u);
    FirstIff(u, NOTE_END, 0);
    if StartsWith(u, NOTE_BEGIN) && IndexOf(u, NOTE_END) >= 0 {
      BehindIs(u, NOTE_END);
    }
  }

  lemma StripCases(s: string)
    ensures var u := TrimStart(s);
            StripNotice(s) == if StartsWith(u, NOTE_BEGIN) && IndexOf(u, NOTE_END) >= 0 then AfterMarker(u, NOTE_END) else u
  {
    hide IndexOf, TrimStart, StartsWith;
  }

  /** What the parser makes of any text is what the text is. */
  lemma ParsedIs(raw: string)
    ensures IsParsed(raw, ParseAgentProfilePrompt(raw))
  {
    hide ParseAgentProfileTag, ReadsTag, IndexOf, Behind, BodyIn, HasBody, StripNotice, WithoutNote, AfterMarker, Holds, FirstAt;
    BodyIff(raw);
    forall r
      ensures ReadsTag(raw, REF_MARKER, r) <==> ParseAgentProfileTag(raw, REF_MARKER) == Some(r)
      ensures ReadsTag(raw, BLOCK_MARKER, r) <==> ParseAgentProfileTag(raw, BLOCK_MARKER) == Some(r)
    {
      TagIff(raw, REF_MARKER, r);
      TagIff(raw, BLOCK_MARKER, r);
    }
    FirstIff(raw, BLOCK_END, 0);
    if IndexOf(raw, "]") >= 0 {
      FirstIff(raw, "]", IndexOf(raw, "]"));
      IndexWithin(raw, "]");
      NoteIs(raw[IndexOf(raw, "]") + 1..]);
    } else {
      FirstIff(raw, "]", 0);
    }
    MarkersBehind(raw);
  }

  lemma MarkersBehind(raw: string)
    ensures HasBody(raw) ==> Behind(raw, BODY_END, AfterMarker(raw, BODY_END))
    ensures IndexOf(raw, BLOCK_END) >= 0 ==> Behind(raw, BLOCK_END, AfterMarker(raw, BLOCK_END))
  {
    hide IndexOf, Behind, AfterMarker;
    if HasBody(raw) {
      BehindIs(raw, BODY_END);
    }
    if IndexOf(raw, BLOCK_END) >= 0 {
      BehindIs(raw, BLOCK_END);
    }
  }

  // ----- normalising a history -----

  function LatestUser(ms: seq<Message>): (r: int)
    ensures -1 <= r < |ms|
  {
    if ms == [] then -1
    else if ms[|ms| - 1].role == User then |ms| - 1
    else LatestUser(ms[..|ms| - 1])
  }

  lemma {:induction false} LatestUserByRoles(a: seq<Message>, b: seq<Message>)
    requires |a| == |b| && forall i :: 0 <= i < |a| ==> a[i].role == b[i].role
    ensures LatestUser(a) == LatestUser(b)
  {
    if a != [] {
      LatestUserByRoles(a[..|a| - 1], b[..|b| - 1]);
    }
  }

  /** The canonical form of a user message; the latest one keeps an unexpanded body. */
  function Canonical(content: string, latest: bool): string {
    var p := ParseAgentProfilePrompt(content);
    if p.Unmatched? || (p.ByBootstrap? && latest) then content
    else BuildPromptWithAgentProfileReference(p.strippedPrompt, p.reference)
  }

  function NormalizedAt(ms: seq<Message>, i: nat): Message
    requires i < |ms|
  {
    if ms[i].role == User then ms[i].(content := Canonical(ms[i].content, i == LatestUser(ms))) else ms[i]
  }

  function NormalizedHistory(ms: seq<Message>): (r: seq<Message>)
    ensures |r| == |ms| && forall i :: 0 <= i < |ms| ==> r[i] == NormalizedAt(ms, i)
  {
    seq(|ms|, i requires 0 <= i < |ms| => NormalizedAt(ms, i))
  }

  /** How many of the first `n` messages change. */
  function ChangedCount(ms: seq<Message>, n: nat): nat
    requires n <= |ms|
  {
    if n == 0 then 0 else ChangedCount(ms, n - 1) + (if NormalizedAt(ms, n - 1) != ms[n - 1] then 1 else 0)
  }

  lemma {:induction false} NothingChanged(ms: seq<Message>, n: nat)
    requires n <= |ms| && ChangedCount(ms, n) == 0
    ensures forall i :: 0 <= i < n ==> NormalizedAt(ms, i) == ms[i]
  {
    hide NormalizedAt;
    if n > 0 {
      NothingChanged(ms, n - 1);
    }
  }

  method FindLatestUser(ms: seq<Message>) returns (r: int)
    ensures r == LatestUser(ms)
  {
    var i := |ms|;
    assert ms[..i] == ms;
    while i > 0
      invariant 0 <= i <= |ms| && LatestUser(ms[..i]) == LatestUser(ms)
    {
      i := i - 1;
      if ms[i].role == User {
        return i;
      }
      assert ms[..i + 1][..i] == ms[..i];
    }
    return -1;
  }

  /** The tag, a note of any wording, and the prompt. */
  ghost predicate IsPrinted(text: string, r: Reference, prompt: string) {
    exists wording, note ::
      && '[' !in wording
      && note == "\n" + "[AGENT_PROFILE_REF_NOTE]" + "\n" + wording + "\n" + "[/AGENT_PROFILE_REF_NOTE]" + "\n\n"
      && text == "[AGENT_PROFILE_REF source=" + SourceName(r.source) + " name=" + r.name + " path=" + r.path + "]" + (note + prompt)
  }

  /**
   * A user message that refers to a profile is printed anew with the reference and the prompt it is read with; but the
   * user's last message keeps an expanded body, and no other message changes.
   */
  ghost predicate IsNormalized(ms: seq<Message>, i: nat, m: Message)
    requires i < |ms|
  {
    var last := forall j :: i < j < |ms| ==> ms[j].role != User;
    if ms[i].role != User then m == ms[i]
    else exists p :: IsParsed(ms[i].content, p) && m == ms[i].(content := m.content)
                     && if p.Unmatched? || (p.ByBootstrap? && last) then m.content == ms[i].content
                        else IsPrinted(m.content, p.reference, p.strippedPrompt)
  }

  lemma PrintedIs(prompt: string, r: Reference)
    ensures IsPrinted(BuildPromptWithAgentProfileReference(prompt, r), r, prompt)
  {
    TagIs(r);
    NoteTextIs();
    hide Tag, Interlude, SourceName;
  }

  lemma TagIs(r: Reference)
    ensures Tag(r) == "[AGENT_PROFILE_REF source=" + SourceName(r.source) + " name=" + r.name + " path=" + r.path + "]"
  {
    hide SourceName;
    var source := SourceName(r.source);
    assert Tag(r) == "[AGENT_PROFILE_REF source=" + source + (" name=" + r.name + (" path=" + r.path + "]"));
  }

  lemma NoteTextIs()
    ensures Interlude() == "\n" + NOTE_BEGIN + "\n" + NOTE_TEXT + "\n" + NOTE_END + "\n\n"
  {
    Regroup("\n", NOTE_BEGIN, "\n", NOTE_TEXT, "\n", NOTE_END, "\n\n");
  }

  lemma Regroup(a: string, b: string, c: string, text: string, d: string, e: string, f: string)
    ensures a + (b + ((c + text + d) + (e + f))) == a + b + c + text + d + e + f
  {
  }

  lemma {:induction false} LatestUserIs(ms: seq<Message>, i: nat)
    requires i < |ms| && ms[i].role == User
    ensures i == LatestUser(ms) <==> forall j :: i < j < |ms| ==> ms[j].role != User
  {
    var n := |ms| - 1;
    if i < n && ms[n].role != User {
      LatestUserIs(ms[..n], i);
    }
  }

  lemma NormalizedIs(ms: seq<Message>, i: nat)
    requires i < |ms|
    ensures IsNormalized(ms, i, NormalizedAt(ms, i))
  {
    hide ParseAgentProfilePrompt, BuildPromptWithAgentProfileReference, IsParsed, IsPrinted, LatestUser;
    if ms[i].role == User {
      ParsedIs(ms[i].content);
      LatestUserIs(ms, i);
      var p := ParseAgentProfilePrompt(ms[i].content);
      if !p.Unmatched? {
        PrintedIs(p.strippedPrompt, p.reference);
      }
    }
  }

  /** Message `i` is one of the user's that refers to a profile. */
  predicate Refers(ms: seq<Message>, i: nat)
    requires i < |ms|
  {
    ms[i].role == User && !ParseAgentProfilePrompt(ms[i].content).Unmatched?
  }

  /** `active` is the reference of the last of the first `n` messages that has one, if any has. */
  ghost predicate IsLastReference(ms: seq<Message>, n: nat, active: Option<Reference>)
    requires n <= |ms|
  {
    match active
    case None => forall i: nat :: i < n ==> !Refers(ms, i)
    case Some(reference) =>
      exists i: nat :: i < n && Refers(ms, i) && ParseAgentProfilePrompt(ms[i].content).reference == reference
                       && forall j: nat :: i < j < n ==> !Refers(ms, j)
  }

  lemma NoReference(ms: seq<Message>)
    ensures IsLastReference(ms, 0, None)
  {
  }

  lemma LastReferenceStep(ms: seq<Message>, n: nat, active: Option<Reference>)
    requires n < |ms| && IsLastReference(ms, n, active)
    ensures var p := ParseAgentProfilePrompt(ms[n].content);
            if ms[n].role == User && !p.Unmatched? then IsLastReference(ms, n + 1, Some(p.reference))
            else IsLastReference(ms, n + 1, active)
  {
    hide ParseAgentProfilePrompt;
    assert Refers(ms, n) <==> ms[n].role == User && !ParseAgentProfilePrompt(ms[n].content).Unmatched?;
  }

  /** Rewrites the stored history in place and reports the last reference and the number of changes. */
  method NormalizeAgentProfileMessagesInPlace(store: MessageStore)
    returns (activeProfileRef: Option<Reference>, normalizedCount: nat)
    modifies store`messages
    ensures store.messages == NormalizedHistory(old(store.messages))
    ensures normalizedCount == ChangedCount(old(store.messages), |old(store.messages)|)
    ensures IsLastReference(old(store.messages), |old(store.messages)|, activeProfileRef)
    ensures |store.messages| == |old(store.messages)|
    ensures forall i :: 0 <= i < |store.messages| ==> IsNormalized(old(store.messages), i, store.messages[i])
  {
    hide ParseAgentProfilePrompt, BuildPromptWithAgentProfileReference, IsLastReference, LatestUser, IsNormalized;
    var ms := store.messages;
    NoReference(ms);
    var next := ms;
    activeProfileRef, normalizedCount := None, 0;
    var latestUserMessageIndex := FindLatestUser(ms);
    for i := 0 to |ms|
      invariant store.messages == ms && |next| == |ms|
      invariant forall k :: 0 <= k < i ==> next[k] == NormalizedAt(ms, k)
      invariant forall k :: i <= k < |ms| ==> next[k] == ms[k]
      invariant normalizedCount == ChangedCount(ms, i)
      invariant IsLastReference(ms, i, activeProfileRef)
    {
      LastReferenceStep(ms, i, activeProfileRef);
      if ms[i].role == User {
        var parsed := ParseAgentProfilePrompt(ms[i].content);
        if !parsed.Unmatched? {
          activeProfileRef := Some(parsed.reference);
          if !(parsed.ByBootstrap? && i == latestUserMessageIndex) {
            var canonical := BuildPromptWithAgentProfileReference(parsed.strippedPrompt, parsed.reference);
            if canonical != ms[i].content {
              next := next[i := ms[i].(content := canonical)];
              normalizedCount := normalizedCount + 1;
            }
          }
        }
      }
    }
    assert next == NormalizedHistory(ms);
    if normalizedCount > 0 {
      store.messages := next;
    } else {
      NothingChanged(ms, |ms|);
      assert NormalizedHistory(ms) == ms;
    }
    forall i | 0 <= i < |ms| ensures IsNormalized(ms, i, store.messages[i]) {
      NormalizedIs(ms, i);
    }
  }

  /** A second pass over this message changes nothing. */
  predicate Stable(content: string, latest: bool) {
    var p := ParseAgentProfilePrompt(content);
    p.Unmatched? || latest || !HidesReference(p.reference.path, p.strippedPrompt)
  }

  lemma CanonicalStableIff(content: string, latest: bool)
    ensures Canonical(Canonical(content, latest), latest) == Canonical(content, latest) <==> Stable(content, latest)
  {
    hide ParseAgentProfilePrompt, BuildPromptWithAgentProfileReference, Printable, LeftTrimmed, HidesReference, IndexOf, AfterMarker;
    var p := ParseAgentProfilePrompt(content);
    if !p.Unmatched? && !(p.ByBootstrap? && latest) {
      StrippedLeftTrimmed(content);
      PrintedParses(p.reference, p.strippedPrompt);
      NothingToTrim(p.strippedPrompt);
      if HidesReference(p.reference.path, p.strippedPrompt) {
        BodyShrinks(p.reference, p.strippedPrompt);
      }
    }
  }

  lemma NothingToTrim(s: string)
    requires LeftTrimmed(s)
    ensures TrimStart(s) == s
  {
  }

  lemma BodyShrinks(r: Reference, prompt: string)
    requires IndexOf(prompt, BODY_END) >= 0
    ensures BuildPromptWithAgentProfileReference(AfterMarker(prompt, BODY_END), r) != BuildPromptWithAgentProfileReference(prompt, r)
  {
    hide BuildPromptWithAgentProfileReference, IndexOf;
    IndexWithin(prompt, BODY_END);
    TrimStartSpec(prompt[IndexOf(prompt, BODY_END) + |BODY_END|..]);
    PrintedLength(r, AfterMarker(prompt, BODY_END));
    PrintedLength(r, prompt);
  }

  lemma PrintedLength(r: Reference, prompt: string)
    ensures |BuildPromptWithAgentProfileReference(prompt, r)| == |Tag(r)| + |Interlude()| + |prompt|
  {
  }

  /**
   * Normalising a whole history twice is normalising it once exactly when no rewritten message,
   * other than the latest user message, is left with text that reads as a profile body.
   */
  lemma NormalizeIdempotentIff(ms: seq<Message>)
    ensures NormalizedHistory(NormalizedHistory(ms)) == NormalizedHistory(ms)
            <==> forall i :: 0 <= i < |ms| && ms[i].role == User ==> Stable(ms[i].content, i == LatestUser(ms))
  {
    hide Canonical, Stable;
    var once := NormalizedHistory(ms);
    LatestUserByRoles(once, ms);
    forall i | 0 <= i < |ms|
      ensures NormalizedAt(once, i) == once[i] <==> (ms[i].role == User ==> Stable(ms[i].content, i == LatestUser(ms)))
    {
      CanonicalStableIff(ms[i].content, i == LatestUser(ms));
    }
    assert NormalizedHistory(once) == once <==> forall i :: 0 <= i < |ms| ==> NormalizedAt(once, i) == once[i];
  }

  /** A prompt that opens with both body markers loses them to a pass. */
  lemma BodyIsTaken(r: Reference, rest: string)
    requires Printable(r) && !EndsOpen(r.path, BODY_BEGIN) && !EndsOpen(r.path, BODY_END) && LeftTrimmed(rest)
    ensures Canonical(BuildPromptWithAgentProfileReference(WithBody(rest), r), false)
            == BuildPromptWithAgentProfileReference(rest, r)
  {
    var prompt := WithBody(rest);
    EndMarkerBehind(rest);
    PrintedParses(r, prompt);
    assert AfterMarker(prompt, BODY_END) == TrimStart(rest) == rest;
  }

  /** A profile body without text in front of a prompt. */
  function WithBody(prompt: string): string {
    BODY_BEGIN + (BODY_END + prompt)
  }

  /** A body behind a body: the first pass takes one away and leaves the other for the second. */
  lemma NormalizingTwiceDiffers(r: Reference)
    requires Printable(r) && !EndsOpen(r.path, BODY_BEGIN) && !EndsOpen(r.path, BODY_END)
    ensures var texts := [Referring(WithBody(WithBody("")), r), Referring(WithBody(""), r), Referring("", r)];
            && NormalizedHistory([texts[0], Plain(User, "go")]) == [texts[1], Plain(User, "go")]
            && NormalizedHistory([texts[1], Plain(User, "go")]) == [texts[2], Plain(User, "go")]
            && texts[1] != texts[2]
  {
    hide BuildPromptWithAgentProfileReference, Canonical, ParseAgentProfilePrompt, EndsOpen, Printable, NormalizedHistory;
    assert WithBody("")[0] == '[';
    BodyIsTaken(r, WithBody(""));
    BodyIsTaken(r, "");
    PrintedLength(r, "");
    PrintedLength(r, WithBody(""));
    PlainText();
    TwoNormalized(BuildPromptWithAgentProfileReference(WithBody(WithBody("")), r), "go");
    TwoNormalized(BuildPromptWithAgentProfileReference(WithBody(""), r), "go");
  }

  /** A user message that carries the printed reference. */
  function Referring(prompt: string, r: Reference): Message {
    Plain(User, BuildPromptWithAgentProfileReference(prompt, r))
  }

  lemma PlainText()
    ensures ParseAgentProfilePrompt("go").Unmatched?
  {
  }

  lemma TwoNormalized(first: string, last: string)
    requires ParseAgentProfilePrompt(last).Unmatched?
    ensures NormalizedHistory([Plain(User, first), Plain(User, last)]) == [Plain(User, Canonical(first, false)), Plain(User, last)]
  {
    hide ParseAgentProfilePrompt, BuildPromptWithAgentProfileReference;
    var ms := [Plain(User, first), Plain(User, last)];
    assert LatestUser(ms) == 1;
    assert NormalizedAt(ms, 0) == Plain(User, Canonical(first, false)) && NormalizedAt(ms, 1) == Plain(User, last);
  }
}
