/** Rendering calendar text: content lines folded as section 3.1 of RFC 5545
    asks and TEXT values escaped as section 3.3.11 asks, with the reading that
    undoes each. */
module CalendarText {
  import opened Text

  const LINE_OCTETS: nat := 75

  predicate NoBreak(s: string) {
    '\r' !in s && '\n' !in s
  }

  // ---- Folding ----

  /** What folding appends for `line` when the physical line under way already
      holds `used` octets. */
  function Fold(line: string, used: nat): string {
    if line == [] then "\r\n"
    else
      var width := Octets(line[0]);
      if used + width > LINE_OCTETS then "\r\n " + [line[0]] + Fold(line[1..], 1 + width)
      else [line[0]] + Fold(line[1..], used + width)
  }

  /** Where the next character does not fit, folding breaks the line and goes
      on after the continuation's space. */
  lemma FoldWraps(line: string, used: nat)
    requires line != [] && used + Octets(line[0]) > LINE_OCTETS
    ensures Fold(line, used) == "\r\n " + Fold(line, 1)
  {
    assert "\r\n " + [line[0]] + Fold(line[1..], 1 + Octets(line[0])) == "\r\n " + ([line[0]] + Fold(line[1..], 1 + Octets(line[0])));
  }

  /** The text with the folding of `line` at its end. */
  method FoldInto(text: string, line: string) returns (out: string)
    ensures out == text + Fold(line, 0)
  {
    out := text;
    var used: nat := 0;
    for i := 0 to |line|
      invariant out + Fold(line[i..], used) == text + Fold(line, 0)
    {
      var c := line[i];
      var width := Octets(c);
      ghost var was := out;
      if used + width > LINE_OCTETS {
        FoldWraps(line[i..], used);
        out := out + "\r\n ";
        used := 1;
        assert was + ("\r\n " + Fold(line[i..], 1)) == out + Fold(line[i..], 1);
      }
      assert line[i..][1..] == line[i + 1..];
      assert out + Fold(line[i..], used) == out + [c] + Fold(line[i + 1..], used + width);
      out := out + [c];
      used := used + width;
    }
    assert line[|line|..] == [];
    out := out + "\r\n";
  }

  // ---- Reading lines ----

  predicate Breaks(text: string) {
    |text| >= 2 && text[0] == '\r' && text[1] == '\n'
  }

  /** A line break followed by a space or a tab is no line break. */
  predicate Continues(text: string) {
    Breaks(text) && |text| >= 3 && (text[2] == ' ' || text[2] == '\t')
  }

  function Unfold(text: string): string {
    if text == [] then []
    else if Continues(text) then Unfold(text[3..])
    else [text[0]] + Unfold(text[1..])
  }

  /** The lines of `text`, what follows the last break included. */
  function Split(text: string): (lines: seq<string>)
    ensures lines != []
  {
    if text == [] then [[]]
    else if Breaks(text) then [[]] + Split(text[2..])
    else
      var rest := Split(text[1..]);
      [[text[0]] + rest[0]] + rest[1..]
  }

  lemma SplitCons(c: char, rest: string)
    requires c != '\r'
    ensures Split([c] + rest) == [[c] + Split(rest)[0]] + Split(rest)[1..]
  {
    assert ([c] + rest)[1..] == rest;
  }

  lemma SplitBreak(rest: string)
    ensures Split("\r\n" + rest) == [[]] + Split(rest)
  {
    assert ("\r\n" + rest)[2..] == rest;
  }

  lemma {:induction false} SplitAtBreak(line: string, rest: string)
    requires NoBreak(line)
    ensures Split(line + "\r\n" + rest) == [line] + Split(rest)
  {
    if line == [] {
      assert line + "\r\n" + rest == "\r\n" + rest;
      SplitBreak(rest);
    } else {
      assert line + "\r\n" + rest == [line[0]] + (line[1..] + "\r\n" + rest);
      SplitCons(line[0], line[1..] + "\r\n" + rest);
      SplitAtBreak(line[1..], rest);
      assert [line[0]] + line[1..] == line;
    }
  }

  predicate AllShort(lines: seq<string>, used: nat) {
    && |lines| >= 2 && lines[|lines| - 1] == []
    && used + Length(lines[0], false) <= 75
    && forall i :: 1 <= i < |lines| ==> Length(lines[i], false) <= 75
  }

  lemma AllShortCons(c: char, lines: seq<string>, used: nat)
    requires AllShort(lines, used + Octets(c))
    ensures AllShort([[c] + lines[0]] + lines[1..], used)
  {
    LengthAdds([c], lines[0], false);
    assert Length([c], false) == Octets(c) by { assert [c][..0] == []; }
  }

  lemma ShortAfterWrap(rest: string, used: nat)
    requires AllShort(Split(rest), 1) && used <= LINE_OCTETS
    ensures AllShort(Split("\r\n " + rest), used)
  {
    AllShortCons(' ', Split(rest), 0);
    SplitCons(' ', rest);
    assert "\r\n " + rest == "\r\n" + ([' '] + rest);
    SplitBreak([' '] + rest);
  }

  /** Folding gives physical lines of at most 75 octets. */
  lemma {:induction false} FoldedLinesAreShort(line: string, used: nat)
    requires NoBreak(line) && used <= LINE_OCTETS
    ensures AllShort(Split(Fold(line, used)), used)
    decreases |line|, if line != [] && used + Octets(line[0]) > LINE_OCTETS then 1 else 0
  {
    if line == [] {
      assert "\r\n" == "\r\n" + [];
      SplitBreak([]);
    } else if used + Octets(line[0]) > LINE_OCTETS {
      FoldWraps(line, used);
      FoldedLinesAreShort(line, 1);
      ShortAfterWrap(Fold(line, 1), used);
    } else {
      var rest := Fold(line[1..], used + Octets(line[0]));
      FoldedLinesAreShort(line[1..], used + Octets(line[0]));
      AllShortCons(line[0], Split(rest), used);
      SplitCons(line[0], rest);
    }
  }

  predicate StartsLine(text: string) {
    text == [] || (text[0] != ' ' && text[0] != '\t')
  }

  lemma UnfoldCons(c: char, rest: string)
    requires c != '\r'
    ensures Unfold([c] + rest) == [c] + Unfold(rest)
  {
    assert ([c] + rest)[1..] == rest;
  }

  lemma UnfoldBreak(rest: string)
    requires StartsLine(rest)
    ensures Unfold("\r\n" + rest) == "\r\n" + Unfold(rest)
  {
    var text := "\r\n" + rest;
    assert text[1..] == ['\n'] + rest;
    UnfoldCons('\n', rest);
    assert ['\r'] + (['\n'] + Unfold(rest)) == "\r\n" + Unfold(rest);
  }

  lemma UnfoldWrap(rest: string)
    ensures Unfold("\r\n " + rest) == Unfold(rest)
  {
    assert ("\r\n " + rest)[3..] == rest;
  }

  lemma UnfoldPastWrap(line: string, used: nat, rest: string)
    requires line != [] && used + Octets(line[0]) > LINE_OCTETS
    ensures Unfold(Fold(line, used) + rest) == Unfold(Fold(line, 1) + rest)
  {
    FoldWraps(line, used);
    assert "\r\n " + Fold(line, 1) + rest == "\r\n " + (Fold(line, 1) + rest);
    UnfoldWrap(Fold(line, 1) + rest);
  }

  lemma UnfoldPastChar(line: string, used: nat, rest: string)
    requires line != [] && line[0] != '\r' && used + Octets(line[0]) <= LINE_OCTETS
    ensures Unfold(Fold(line, used) + rest) == [line[0]] + Unfold(Fold(line[1..], used + Octets(line[0])) + rest)
  {
    var c, tail := line[0], Fold(line[1..], used + Octets(line[0]));
    assert [c] + tail + rest == [c] + (tail + rest);
    UnfoldCons(c, tail + rest);
  }

  /** Unfolding gives a folded line back, whatever line follows. */
  lemma {:induction false} UnfoldUndoesFold(line: string, used: nat, rest: string)
    requires NoBreak(line) && StartsLine(rest)
    ensures Unfold(Fold(line, used) + rest) == line + "\r\n" + Unfold(rest)
    decreases |line|, if line != [] && used + Octets(line[0]) > LINE_OCTETS then 1 else 0
  {
    if line == [] {
      UnfoldBreak(rest);
      assert line + "\r\n" == "\r\n";
    } else if used + Octets(line[0]) > LINE_OCTETS {
      UnfoldPastWrap(line, used, rest);
      UnfoldUndoesFold(line, 1, rest);
    } else {
      UnfoldPastChar(line, used, rest);
      UnfoldUndoesFold(line[1..], used + Octets(line[0]), rest);
      PrependLine(line[0], line, Unfold(rest));
    }
  }

  lemma PrependLine(c: char, line: string, rest: string)
    requires line != [] && line[0] == c
    ensures [c] + (line[1..] + "\r\n" + rest) == line + "\r\n" + rest
  {
  }

  // ---- Escaping ----

  function EscapeChar(c: char): string {
    if c == '\\' then "\\\\"
    else if c == ';' then "\\;"
    else if c == ',' then "\\,"
    else if c == '\n' then "\\n"
    else if c == '\r' then ""
    else [c]
  }

  function Escape(text: string): string {
    if text == [] then [] else EscapeChar(text[0]) + Escape(text[1..])
  }

  lemma EscapeStep(out: string, text: string, i: nat)
    requires i < |text|
    ensures out + Escape(text[i..]) == out + EscapeChar(text[i]) + Escape(text[i + 1..])
  {
    assert text[i..][1..] == text[i + 1..];
    assert out + (EscapeChar(text[i]) + Escape(text[i + 1..])) == out + EscapeChar(text[i]) + Escape(text[i + 1..]);
  }

  method EscapeText(text: string) returns (out: string)
    ensures out == Escape(text)
  {
    out := "";
    for i := 0 to |text|
      invariant out + Escape(text[i..]) == Escape(text)
    {
      ghost var was := out;
      var c := text[i];
      if c == '\\' {
        out := out + "\\\\";
      } else if c == ';' {
        out := out + "\\;";
      } else if c == ',' {
        out := out + "\\,";
      } else if c == '\n' {
        out := out + "\\n";
      } else if c != '\r' {
        out := out + [c];
      }
      assert out == was + EscapeChar(c);
      EscapeStep(was, text, i);
    }
    assert text[|text|..] == [];
  }

  /** Reading an escaped TEXT value. */
  function Unescape(text: string): string {
    if text == [] then []
    else if text[0] == '\\' && |text| >= 2 then
      (if text[1] == 'n' || text[1] == 'N' then ['\n'] else [text[1]]) + Unescape(text[2..])
    else [text[0]] + Unescape(text[1..])
  }

  function DropReturns(text: string): string {
    if text == [] then []
    else (if text[0] == '\r' then [] else [text[0]]) + DropReturns(text[1..])
  }

  /** Unescaping gives the text back, its carriage returns gone. */
  lemma {:induction false} UnescapeUndoesEscape(text: string)
    ensures Unescape(Escape(text)) == DropReturns(text)
  {
    if text != [] {
      var c, rest := text[0], Escape(text[1..]);
      UnescapeUndoesEscape(text[1..]);
      var escaped := EscapeChar(c) + rest;
      if c == '\r' {
        assert escaped == rest;
        assert [] + DropReturns(text[1..]) == DropReturns(text[1..]);
      } else if c == '\\' || c == ';' || c == ',' || c == '\n' {
        assert escaped[2..] == rest;
      } else {
        assert escaped[1..] == rest;
      }
    }
  }

  lemma {:induction false} EscapeNeverBreaks(text: string)
    ensures NoBreak(Escape(text))
  {
    if text != [] {
      EscapeNeverBreaks(text[1..]);
    }
  }

  lemma {:induction false} NothingDropped(text: string)
    requires '\r' !in text
    ensures DropReturns(text) == text
  {
    if text != [] {
      NothingDropped(text[1..]);
    }
  }

  // ---- The calendar ----

  /** One window, its stamps and place already formatted. */
  datatype Window = Window(uid: string, start: string, end: string, geo: string, description: string)

  datatype Snapshot = Snapshot(designation: string, site: string, zone: string, windows: seq<Window>)

  predicate Formatted(s: Snapshot, stamp: string) {
    NoBreak(stamp) && forall w :: w in s.windows ==> NoBreak(w.uid) && NoBreak(w.start) && NoBreak(w.end) && NoBreak(w.geo)
  }

  datatype Name =
    | Begin | End | Version | ProdId | CalScale | Method | CalName | TimeZone | Uid | Stamp | Start | Finish
    | Summary | Location | Geo | Description | Transparency
  {
    function Text(): string {
      match this
      case Begin => "BEGIN"
      case End => "END"
      case Version => "VERSION"
      case ProdId => "PRODID"
      case CalScale => "CALSCALE"
      case Method => "METHOD"
      case CalName => "X-WR-CALNAME"
      case TimeZone => "X-WR-TIMEZONE"
      case Uid => "UID"
      case Stamp => "DTSTAMP"
      case Start => "DTSTART"
      case Finish => "DTEND"
      case Summary => "SUMMARY"
      case Location => "LOCATION"
      case Geo => "GEO"
      case Description => "DESCRIPTION"
      case Transparency => "TRANSP"
    }
  }

  /** The values the format fixes. */
  datatype Word = Calendar | Event | Two | Product | Gregorian | Publish | Transparent
  {
    function Text(): string {
      match this
      case Calendar => "VCALENDAR"
      case Event => "VEVENT"
      case Two => "2.0"
      case Product => "-//PlateVault//Observing plans 1//EN"
      case Gregorian => "GREGORIAN"
      case Publish => "PUBLISH"
      case Transparent => "TRANSPARENT"
    }
  }

  /** A value: fixed, free text to escape, or already formatted. */
  datatype Value = Fixed(word: Word) | Free(text: string) | Ready(text: string)
  {
    function Text(): string {
      if Fixed? then word.Text() else if Free? then Escape(text) else text
    }
  }

  /** A property and its value, written on one content line. */
  datatype Property = Property(name: Name, value: Value) {
    function Line(): string {
      name.Text() + ":" + value.Text()
    }
  }

  function HeadLines(s: Snapshot): seq<Property> {
    [Property(Begin, Fixed(Calendar)), Property(Version, Fixed(Two)), Property(ProdId, Fixed(Product)),
     Property(CalScale, Fixed(Gregorian)), Property(Method, Fixed(Publish)),
     Property(CalName, Free(s.designation + " from " + s.site)), Property(TimeZone, Free(s.zone))]
  }

  function WindowLines(s: Snapshot, stamp: string, w: Window): seq<Property> {
    [Property(Begin, Fixed(Event)), Property(Uid, Ready(w.uid)), Property(Stamp, Ready(stamp)),
     Property(Start, Ready(w.start)), Property(Finish, Ready(w.end)),
     Property(Summary, Free(s.designation + " observing window")), Property(Location, Free(s.site)),
     Property(Geo, Ready(w.geo)), Property(Description, Free(w.description)),
     Property(Transparency, Fixed(Transparent)), Property(End, Fixed(Event))]
  }

  function AllWindowLines(s: Snapshot, stamp: string, n: nat): seq<Property>
    requires n <= |s.windows|
  {
    if n == 0 then [] else AllWindowLines(s, stamp, n - 1) + WindowLines(s, stamp, s.windows[n - 1])
  }

  /** The content lines of the calendar of `s`. */
  function CalendarLines(s: Snapshot, stamp: string): seq<Property> {
    HeadLines(s) + AllWindowLines(s, stamp, |s.windows|) + [Property(End, Fixed(Calendar))]
  }

  // ---- Rendering ----

  /** Content lines folded one after another. */
  function FoldAll(lines: seq<string>): string {
    if lines == [] then [] else Fold(lines[0], 0) + FoldAll(lines[1..])
  }

  lemma {:induction false} FoldAllAdds(a: seq<string>, b: seq<string>)
    ensures FoldAll(a + b) == FoldAll(a) + FoldAll(b)
  {
    if a == [] {
      assert a + b == b;
    } else {
      assert (a + b)[1..] == a[1..] + b;
      FoldAllAdds(a[1..], b);
    }
  }

  /** The text of each line. */
  function Texts(lines: seq<Property>): seq<string> {
    if lines == [] then [] else Texts(lines[..|lines| - 1]) + [lines[|lines| - 1].Line()]
  }

  method AppendLines(text: string, lines: seq<string>) returns (out: string)
    ensures out == text + FoldAll(lines)
  {
    out := text;
    for i := 0 to |lines|
      invariant out == text + FoldAll(lines[..i])
    {
      assert lines[..i + 1] == lines[..i] + [lines[i]];
      FoldAllAdds(lines[..i], [lines[i]]);
      out := FoldInto(out, lines[i]);
    }
    assert lines[..|lines|] == lines;
  }

  lemma {:induction false} TextsAdd(a: seq<Property>, b: seq<Property>)
    ensures Texts(a + b) == Texts(a) + Texts(b)
  {
    if b == [] {
      assert a + b == a;
    } else {
      var n := |b| - 1;
      assert (a + b)[..|a + b| - 1] == a + b[..n];
      TextsAdd(a, b[..n]);
    }
  }

  lemma FoldTextsAdds(a: seq<Property>, b: seq<Property>)
    ensures FoldAll(Texts(a + b)) == FoldAll(Texts(a)) + FoldAll(Texts(b))
  {
    TextsAdd(a, b);
    FoldAllAdds(Texts(a), Texts(b));
  }

  function RenderedTo(s: Snapshot, stamp: string, n: nat): string
    requires n <= |s.windows|
  {
    FoldAll(Texts(HeadLines(s) + AllWindowLines(s, stamp, n)))
  }

  lemma Regrouped<T>(a: seq<T>, b: seq<T>, c: seq<T>)
    ensures a + b + c == a + (b + c)
  {
  }

  lemma OneMoreWindow(s: Snapshot, stamp: string, n: nat)
    requires n < |s.windows|
    ensures RenderedTo(s, stamp, n + 1) == RenderedTo(s, stamp, n) + FoldAll(Texts(WindowLines(s, stamp, s.windows[n])))
  {
    var head, done, lines := HeadLines(s), AllWindowLines(s, stamp, n), WindowLines(s, stamp, s.windows[n]);
    FoldTextsAdds(head + done, lines);
    Regrouped(head, done, lines);
  }

  method RenderWindow(out: string, s: Snapshot, stamp: string, w: Window) returns (text: string)
    ensures text == out + FoldAll(Texts(WindowLines(s, stamp, w)))
  {
    text := AppendLines(out, Texts(WindowLines(s, stamp, w)));
  }

  method RenderHead(s: Snapshot, stamp: string) returns (out: string)
    ensures out == RenderedTo(s, stamp, 0)
  {
    out := AppendLines("", Texts(HeadLines(s)));
    assert HeadLines(s) + AllWindowLines(s, stamp, 0) == HeadLines(s);
  }

  /** Render the snapshot into one buffer, line after line. */
  method RenderIcs(s: Snapshot, stamp: string) returns (out: string)
    ensures out == FoldAll(Texts(CalendarLines(s, stamp)))
  {
    out := RenderHead(s, stamp);
    for i := 0 to |s.windows|
      invariant out == RenderedTo(s, stamp, i)
    {
      out := RenderWindow(out, s, stamp, s.windows[i]);
      OneMoreWindow(s, stamp, i);
    }
    var last := [Property(End, Fixed(Calendar))];
    out := AppendLines(out, Texts(last));
    FoldTextsAdds(HeadLines(s) + AllWindowLines(s, stamp, |s.windows|), last);
  }

  // ---- Reading the calendar back ----

  predicate ContentLine(line: string) {
    NoBreak(line) && line != [] && StartsLine(line)
  }

  /** Unfolding and splitting a rendered text gives its content lines back. */
  lemma {:induction false} LinesAreRecovered(lines: seq<string>)
    requires forall l :: l in lines ==> ContentLine(l)
    ensures StartsLine(FoldAll(lines)) && Split(Unfold(FoldAll(lines))) == lines + [[]]
  {
    if lines != [] {
      var rest := FoldAll(lines[1..]);
      assert ContentLine(lines[0]) && lines[0] in lines;
      LinesAreRecovered(lines[1..]);
      UnfoldUndoesFold(lines[0], 0, rest);
      SplitAtBreak(lines[0], Unfold(rest));
      assert [lines[0]] + (lines[1..] + [[]]) == lines + [[]];
    }
  }

  /** Values formatted elsewhere hold no line break. */
  predicate Sound(lines: seq<Property>) {
    forall i :: 0 <= i < |lines| && lines[i].value.Ready? ==> NoBreak(lines[i].value.text)
  }

  lemma NameStartsLine(n: Name)
    ensures ContentLine(n.Text())
  {
    match n
    case _ =>
  }

  lemma ProductNeverBreaks()
    ensures NoBreak(Product.Text())
  {
  }

  lemma WordNeverBreaks(w: Word)
    ensures NoBreak(w.Text())
  {
    match w
    case Product => ProductNeverBreaks();
    case _ =>
  }

  lemma ValueNeverBreaks(v: Value)
    requires v.Ready? ==> NoBreak(v.text)
    ensures NoBreak(v.Text())
  {
    match v
    case Fixed(word) => WordNeverBreaks(word);
    case Free(text) => EscapeNeverBreaks(text);
    case Ready(_) =>
  }

  lemma JoinedIsContent(name: string, value: string)
    requires ContentLine(name) && NoBreak(value)
    ensures ContentLine(name + ":" + value)
  {
    assert (name + ":" + value)[0] == name[0];
  }

  lemma {:induction false} TextsAreContent(lines: seq<Property>)
    requires Sound(lines)
    ensures forall l :: l in Texts(lines) ==> ContentLine(l)
  {
    if lines != [] {
      var last := lines[|lines| - 1];
      TextsAreContent(lines[..|lines| - 1]);
      NameStartsLine(last.name);
      ValueNeverBreaks(last.value);
      JoinedIsContent(last.name.Text(), last.value.Text());
    }
  }

  lemma WindowLinesAreSound(s: Snapshot, stamp: string, w: Window)
    requires NoBreak(stamp) && NoBreak(w.uid) && NoBreak(w.start) && NoBreak(w.end) && NoBreak(w.geo)
    ensures Sound(WindowLines(s, stamp, w))
  {
  }

  lemma SoundAdds(a: seq<Property>, b: seq<Property>)
    requires Sound(a) && Sound(b)
    ensures Sound(a + b)
  {
  }

  lemma {:induction false} AllWindowLinesAreSound(s: Snapshot, stamp: string, n: nat)
    requires n <= |s.windows| && Formatted(s, stamp)
    ensures Sound(AllWindowLines(s, stamp, n))
  {
    if n > 0 {
      AllWindowLinesAreSound(s, stamp, n - 1);
      assert s.windows[n - 1] in s.windows;
      WindowLinesAreSound(s, stamp, s.windows[n - 1]);
      SoundAdds(AllWindowLines(s, stamp, n - 1), WindowLines(s, stamp, s.windows[n - 1]));
    }
  }

  lemma CalendarLinesAreSound(s: Snapshot, stamp: string)
    requires Formatted(s, stamp)
    ensures Sound(CalendarLines(s, stamp))
  {
    AllWindowLinesAreSound(s, stamp, |s.windows|);
    HeadLinesAreSound(s);
    SoundAdds(HeadLines(s), AllWindowLines(s, stamp, |s.windows|));
    SoundAdds(HeadLines(s) + AllWindowLines(s, stamp, |s.windows|), [Property(End, Fixed(Calendar))]);
  }

  lemma HeadLinesAreSound(s: Snapshot)
    ensures Sound(HeadLines(s))
  {
  }

  /** Any lines with sound values are read back from what rendering gives. */
  lemma TextsAreRecovered(lines: seq<Property>)
    requires Sound(lines)
    ensures Split(Unfold(FoldAll(Texts(lines)))) == Texts(lines) + [[]]
  {
    TextsAreContent(lines);
    LinesAreRecovered(Texts(lines));
  }

  /** Every content line of the calendar is recovered from the rendered text,
      whatever the names hold. */
  lemma CalendarIsRecovered(s: Snapshot, stamp: string)
    requires Formatted(s, stamp)
    ensures Split(Unfold(FoldAll(Texts(CalendarLines(s, stamp))))) == Texts(CalendarLines(s, stamp)) + [[]]
  {
    CalendarLinesAreSound(s, stamp);
    TextsAreRecovered(CalendarLines(s, stamp));
  }

  /** A content line cut at its first colon: the name, and the value. */
  function NameOf(line: string): string {
    line[..IndexOf(line, ':')]
  }

  function ValueOf(line: string): string {
    var k := IndexOf(line, ':');
    if k == |line| then [] else line[k + 1..]
  }

  lemma CutAtColon(name: string, value: string)
    requires ':' !in name
    ensures NameOf(name + ":" + value) == name && ValueOf(name + ":" + value) == value
  {
    var line := name + ":" + value;
    assert line[..|name|] == name && line[|name| + 1..] == value;
    FirstIs(line, ':', |name|);
  }

  lemma NameHasNoColon(n: Name)
    ensures ':' !in n.Text()
  {
    match n
    case _ =>
  }

  /** What a reader makes of a content line is the property it was written
      for: its name, and its value as it was or, where it was free text, that
      text without its carriage returns. */
  predicate ReadsAs(line: string, p: Property) {
    && NameOf(line) == p.name.Text()
    && if p.value.Free? then Unescape(ValueOf(line)) == DropReturns(p.value.text) else ValueOf(line) == p.value.Text()
  }

  lemma LineReadsAs(p: Property)
    ensures ReadsAs(p.Line(), p)
  {
    NameHasNoColon(p.name);
    CutAtColon(p.name.Text(), p.value.Text());
    if p.value.Free? {
      UnescapeUndoesEscape(p.value.text);
    }
  }

  lemma {:induction false} TextsAt(lines: seq<Property>, i: nat)
    requires i < |lines|
    ensures |Texts(lines)| == |lines| && Texts(lines)[i] == lines[i].Line()
  {
    var front := lines[..|lines| - 1];
    if i < |front| {
      TextsAt(front, i);
    } else if front != [] {
      TextsAt(front, 0);
    }
  }

  /** Unfolded, split, cut and unescaped, the calendar text gives back every
      property in order, whatever the names hold. */
  lemma ValuesAreRecovered(s: Snapshot, stamp: string, i: nat)
    requires Formatted(s, stamp) && i < |CalendarLines(s, stamp)|
    ensures var read := Split(Unfold(FoldAll(Texts(CalendarLines(s, stamp)))));
      |read| == |CalendarLines(s, stamp)| + 1 && ReadsAs(read[i], CalendarLines(s, stamp)[i])
  {
    CalendarIsRecovered(s, stamp);
    var lines := CalendarLines(s, stamp);
    TextsAt(lines, i);
    LineReadsAs(lines[i]);
  }

  /** Free text without carriage returns comes back as it was written. */
  lemma TextComesBack(s: Snapshot, stamp: string, i: nat)
    requires Formatted(s, stamp) && i < |CalendarLines(s, stamp)|
    requires var value := CalendarLines(s, stamp)[i].value; value.Free? && '\r' !in value.text
    ensures var read := Split(Unfold(FoldAll(Texts(CalendarLines(s, stamp)))));
      i < |read| && Unescape(ValueOf(read[i])) == CalendarLines(s, stamp)[i].value.text
  {
    ValuesAreRecovered(s, stamp, i);
    NothingDropped(CalendarLines(s, stamp)[i].value.text);
  }
}
