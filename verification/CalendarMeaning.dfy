/** What a rendered calendar says, line by line and octet by octet. */
module CalendarMeaning {
  import opened Text
  import opened CalendarText

  // ---- The lines ----

  /** The line is this text, then a value's. */
  predicate Reads(p: Property, start: string, value: string) {
    p.Line() == start + value
  }

  lemma NamedReads(p: Property, start: string)
    requires p.name.Text() + ":" == start
    ensures Reads(p, start, p.value.Text())
  {
  }

  lemma FormatReads(s: Snapshot)
    ensures Reads(HeadLines(s)[0], "BEGIN:", "VCALENDAR") && Reads(HeadLines(s)[1], "VERSION:", "2.0")
  {
    NamedReads(HeadLines(s)[0], "BEGIN:");
    NamedReads(HeadLines(s)[1], "VERSION:");
  }

  lemma ProductReads(s: Snapshot)
    ensures Reads(HeadLines(s)[2], "PRODID:", "-//PlateVault//Observing plans 1//EN")
  {
    NamedReads(HeadLines(s)[2], "PRODID:");
  }

  lemma MethodReads(s: Snapshot)
    ensures Reads(HeadLines(s)[3], "CALSCALE:", "GREGORIAN") && Reads(HeadLines(s)[4], "METHOD:", "PUBLISH")
  {
    NamedReads(HeadLines(s)[3], "CALSCALE:");
    NamedReads(HeadLines(s)[4], "METHOD:");
  }

  lemma PlaceReads(s: Snapshot)
    ensures Reads(HeadLines(s)[5], "X-WR-CALNAME:", Escape(s.designation + " from " + s.site))
    ensures Reads(HeadLines(s)[6], "X-WR-TIMEZONE:", Escape(s.zone))
  {
    NamedReads(HeadLines(s)[5], "X-WR-CALNAME:");
    NamedReads(HeadLines(s)[6], "X-WR-TIMEZONE:");
  }

  /** What comes before the windows, line by line. */
  lemma HeadReads(s: Snapshot)
    ensures |HeadLines(s)| == 7
    ensures Reads(HeadLines(s)[0], "BEGIN:", "VCALENDAR") && Reads(HeadLines(s)[1], "VERSION:", "2.0")
    ensures Reads(HeadLines(s)[2], "PRODID:", "-//PlateVault//Observing plans 1//EN")
    ensures Reads(HeadLines(s)[3], "CALSCALE:", "GREGORIAN") && Reads(HeadLines(s)[4], "METHOD:", "PUBLISH")
    ensures Reads(HeadLines(s)[5], "X-WR-CALNAME:", Escape(s.designation + " from " + s.site))
    ensures Reads(HeadLines(s)[6], "X-WR-TIMEZONE:", Escape(s.zone))
  {
    FormatReads(s);
    ProductReads(s);
    MethodReads(s);
    PlaceReads(s);
  }

  lemma EventReads(s: Snapshot, stamp: string, w: Window)
    ensures var lines := WindowLines(s, stamp, w);
      Reads(lines[0], "BEGIN:", "VEVENT") && Reads(lines[9], "TRANSP:", "TRANSPARENT") && Reads(lines[10], "END:", "VEVENT")
  {
    NamedReads(WindowLines(s, stamp, w)[0], "BEGIN:");
    NamedReads(WindowLines(s, stamp, w)[9], "TRANSP:");
    NamedReads(WindowLines(s, stamp, w)[10], "END:");
  }

  lemma TimesRead(s: Snapshot, stamp: string, w: Window)
    ensures var lines := WindowLines(s, stamp, w);
      && Reads(lines[1], "UID:", w.uid) && Reads(lines[2], "DTSTAMP:", stamp)
      && Reads(lines[3], "DTSTART:", w.start) && Reads(lines[4], "DTEND:", w.end) && Reads(lines[7], "GEO:", w.geo)
  {
    NamedReads(WindowLines(s, stamp, w)[1], "UID:");
    NamedReads(WindowLines(s, stamp, w)[2], "DTSTAMP:");
    NamedReads(WindowLines(s, stamp, w)[3], "DTSTART:");
    NamedReads(WindowLines(s, stamp, w)[4], "DTEND:");
    NamedReads(WindowLines(s, stamp, w)[7], "GEO:");
  }

  lemma TextsRead(s: Snapshot, stamp: string, w: Window)
    ensures var lines := WindowLines(s, stamp, w);
      && Reads(lines[5], "SUMMARY:", Escape(s.designation + " observing window"))
      && Reads(lines[6], "LOCATION:", Escape(s.site)) && Reads(lines[8], "DESCRIPTION:", Escape(w.description))
  {
    NamedReads(WindowLines(s, stamp, w)[5], "SUMMARY:");
    NamedReads(WindowLines(s, stamp, w)[6], "LOCATION:");
    NamedReads(WindowLines(s, stamp, w)[8], "DESCRIPTION:");
  }

  /** One window, line by line. */
  lemma WindowReads(s: Snapshot, stamp: string, w: Window)
    ensures var lines := WindowLines(s, stamp, w);
      && |lines| == 11
      && Reads(lines[0], "BEGIN:", "VEVENT") && Reads(lines[1], "UID:", w.uid) && Reads(lines[2], "DTSTAMP:", stamp)
      && Reads(lines[3], "DTSTART:", w.start) && Reads(lines[4], "DTEND:", w.end)
      && Reads(lines[5], "SUMMARY:", Escape(s.designation + " observing window"))
      && Reads(lines[6], "LOCATION:", Escape(s.site)) && Reads(lines[7], "GEO:", w.geo)
      && Reads(lines[8], "DESCRIPTION:", Escape(w.description))
      && Reads(lines[9], "TRANSP:", "TRANSPARENT") && Reads(lines[10], "END:", "VEVENT")
  {
    EventReads(s, stamp, w);
    TimesRead(s, stamp, w);
    TextsRead(s, stamp, w);
  }

  /** The head, then the windows one after another, then the end. */
  lemma CalendarReads(s: Snapshot, stamp: string, k: nat, i: nat)
    requires k < |s.windows| && i < 11
    ensures var lines := CalendarLines(s, stamp);
      && |lines| == 7 + 11 * |s.windows| + 1
      && lines[..7] == HeadLines(s)
      && lines[7 + 11 * k + i] == WindowLines(s, stamp, s.windows[k])[i]
      && Reads(lines[|lines| - 1], "END:", "VCALENDAR")
  {
    WindowsInTurn(s, stamp, |s.windows|, k, i);
    NamedReads(Property(End, Fixed(Calendar)), "END:");
    assert CalendarLines(s, stamp)[..7] == HeadLines(s);
  }

  lemma {:induction false} WindowsInTurn(s: Snapshot, stamp: string, n: nat, k: nat, i: nat)
    requires k < n <= |s.windows| && i < 11
    ensures |AllWindowLines(s, stamp, n)| == 11 * n
    ensures AllWindowLines(s, stamp, n)[11 * k + i] == WindowLines(s, stamp, s.windows[k])[i]
  {
    if k < n - 1 {
      WindowsInTurn(s, stamp, n - 1, k, i);
    } else if n > 1 {
      WindowsInTurn(s, stamp, n - 1, 0, 0);
    }
  }

  // ---- Escaping ----

  /** Each character escapes by itself: a backslash, a semicolon and a comma
      with a backslash before them, a line feed as backslash n, a carriage
      return as nothing. */
  lemma EscapeSays(c: char)
    ensures Escape([c]) ==
      if c == '\\' || c == ';' || c == ',' then ['\\', c]
      else if c == '\n' then ['\\', 'n']
      else if c == '\r' then []
      else [c]
  {
    assert [c][1..] == [] && EscapeChar(c) + [] == EscapeChar(c);
  }

  lemma {:induction false} EscapeAdds(a: string, b: string)
    ensures Escape(a + b) == Escape(a) + Escape(b)
  {
    if a == [] {
      assert a + b == b;
    } else {
      assert (a + b)[1..] == a[1..] + b;
      EscapeAdds(a[1..], b);
    }
  }

  // ---- Folding ----

  /** The first character of this line, after its space, did not fit on the one
      before. */
  predicate WrapsLate(lines: seq<string>, used: nat, i: nat)
    requires 0 < i < |lines|
  {
    && |lines[i]| >= 2 && lines[i][0] == ' '
    && (if i == 1 then used else 0) + Length(lines[i - 1], false) + Octets(lines[i][1]) > 75
  }

  /** Every line but the last is full. */
  predicate AllFull(lines: seq<string>, used: nat) {
    |lines| >= 2 && forall i :: 0 < i < |lines| - 1 ==> WrapsLate(lines, used, i)
  }

  lemma FullAfterChar(c: char, lines: seq<string>, used: nat)
    requires AllFull(lines, used + Octets(c))
    ensures AllFull([[c] + lines[0]] + lines[1..], used)
  {
    var more := [[c] + lines[0]] + lines[1..];
    LengthAdds([c], lines[0], false);
    assert Length([c], false) == Octets(c) by { assert [c][..0] == []; }
    forall i | 0 < i < |more| - 1 ensures WrapsLate(more, used, i) {
      assert WrapsLate(lines, used + Octets(c), i);
    }
  }

  lemma FullAfterBreak(lines: seq<string>, used: nat)
    requires AllFull(lines, 0) && |lines[0]| >= 2 && lines[0][0] == ' ' && used + Octets(lines[0][1]) > 75
    ensures AllFull([[]] + lines, used)
  {
    var all := [[]] + lines;
    forall i | 0 < i < |all| - 1 ensures WrapsLate(all, used, i) {
      if i > 1 { assert WrapsLate(lines, 0, i - 1); }
    }
  }

  lemma FirstOfSplit(c: char, rest: string)
    requires c != '\r' && rest != [] && rest[0] == c
    ensures var line := Split([' '] + rest)[0]; |line| >= 2 && line[0] == ' ' && line[1] == c
  {
    SplitCons(' ', rest);
    assert rest == [c] + rest[1..];
    SplitCons(c, rest[1..]);
  }

  lemma FullAfterWrap(c: char, rest: string, used: nat)
    requires AllFull(Split(rest), 1) && c != '\r' && rest != [] && rest[0] == c && used + Octets(c) > 75
    ensures AllFull(Split("\r\n " + rest), used)
  {
    SplitCons(' ', rest);
    FullAfterChar(' ', Split(rest), 0);
    FirstOfSplit(c, rest);
    FullAfterBreak(Split([' '] + rest), used);
    assert "\r\n " + rest == "\r\n" + ([' '] + rest);
    SplitBreak([' '] + rest);
  }

  /** Folding wraps no line before it has to. */
  lemma {:induction false} FoldedLinesAreFull(line: string, used: nat)
    requires NoBreak(line) && used <= 75
    ensures AllFull(Split(Fold(line, used)), used)
    decreases |line|, if line != [] && used + Octets(line[0]) > 75 then 1 else 0
  {
    if line == [] {
      assert "\r\n" == "\r\n" + [];
      SplitBreak([]);
    } else if used + Octets(line[0]) > 75 {
      FoldWraps(line, used);
      FoldedLinesAreFull(line, 1);
      FoldKeepsFirst(line);
      FullAfterWrap(line[0], Fold(line, 1), used);
    } else {
      var rest := Fold(line[1..], used + Octets(line[0]));
      FoldedLinesAreFull(line[1..], used + Octets(line[0]));
      FullAfterChar(line[0], Split(rest), used);
      SplitCons(line[0], rest);
    }
  }

  lemma FoldKeepsFirst(line: string)
    requires line != []
    ensures Fold(line, 1) != [] && Fold(line, 1)[0] == line[0]
  {
  }
}
