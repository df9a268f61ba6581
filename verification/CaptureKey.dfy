/** The text that says which frames were captured alike, and how to read every
    field of it back. */
module CaptureKey {
  import opened Wrappers
  import opened Text

  const KEY_VERSION := "capture-v1"

  /** One field of a key: its canonical text, or that it is unknown. */
  datatype Field = Field(name: string, value: Option<string>)

  // ---- Writing a key ----

  function Escape(s: string): string {
    if s == [] then []
    else (if s[0] == '%' then "%25" else if s[0] == '|' then "%7C" else [s[0]]) + Escape(s[1..])
  }

  function FieldText(f: Field): string {
    ['|'] + f.name + match f.value { case Some(v) => ['='] + Escape(v) case None => ['?'] }
  }

  function FieldsText(fields: seq<Field>): string {
    if fields == [] then [] else FieldsText(fields[..|fields| - 1]) + FieldText(fields[|fields| - 1])
  }

  function Encode(fields: seq<Field>): string {
    KEY_VERSION + FieldsText(fields)
  }

  // ---- Reading it back ----

  function Unescape(s: string): string
    decreases |s|
  {
    if s == [] then []
    else if |s| >= 3 && s[..3] == "%25" then ['%'] + Unescape(s[3..])
    else if |s| >= 3 && s[..3] == "%7C" then ['|'] + Unescape(s[3..])
    else [s[0]] + Unescape(s[1..])
  }

  /** Where a field's name ends: at the first `=` or `?`. */
  function NameEnd(part: string): (k: nat)
    ensures k <= |part|
    ensures forall i :: 0 <= i < k ==> part[i] != '=' && part[i] != '?'
    ensures k < |part| ==> part[k] == '=' || part[k] == '?'
  {
    if part == [] || part[0] == '=' || part[0] == '?' then 0
    else
      var k := NameEnd(part[1..]) + 1;
      assert forall i :: 0 < i < |part| ==> part[i] == part[1..][i - 1];
      k
  }

  function ReadField(part: string): Field {
    var k := NameEnd(part);
    if k < |part| && part[k] == '=' then Field(part[..k], Some(Unescape(part[k + 1..])))
    else Field(part[..k], None)
  }

  function ReadFields(parts: seq<string>): seq<Field> {
    if parts == [] then [] else [ReadField(parts[0])] + ReadFields(parts[1..])
  }

  function Decode(key: string): seq<Field> {
    ReadFields(SplitOn(key, '|')[1..])
  }

  // ---- Every field comes back ----

  predicate PlainName(name: string) {
    forall k :: 0 <= k < |name| ==> name[k] != '|' && name[k] != '=' && name[k] != '?'
  }

  predicate PlainNames(fields: seq<Field>) {
    forall k :: 0 <= k < |fields| ==> PlainName(fields[k].name)
  }

  lemma {:induction false} EscapeHidesBars(s: string)
    ensures '|' !in Escape(s)
  {
    if s != [] {
      EscapeHidesBars(s[1..]);
    }
  }

  lemma {:induction false} UnescapeUndoesEscape(s: string)
    ensures Unescape(Escape(s)) == s
  {
    if s != [] {
      var rest := Escape(s[1..]);
      UnescapeUndoesEscape(s[1..]);
      var code := Escape(s);
      if s[0] == '%' {
        assert code == "%25" + rest && code[..3] == "%25" && code[3..] == rest;
      } else if s[0] == '|' {
        assert code == "%7C" + rest && code[..3] == "%7C" && code[3..] == rest;
      } else {
        assert code == [s[0]] + rest && code[1..] == rest && code[0] != '%';
        assert |code| >= 3 ==> code[..3][0] != '%';
      }
    }
  }

  function Body(f: Field): string {
    FieldText(f)[1..]
  }

  lemma FieldIsRead(f: Field)
    requires PlainName(f.name)
    ensures ReadField(Body(f)) == f && '|' !in Body(f)
  {
    var body := Body(f);
    match f.value
    case Some(v) =>
      UnescapeUndoesEscape(v);
      EscapeHidesBars(v);
      assert body == f.name + ['='] + Escape(v);
      NameEndsAt(body, |f.name|);
      assert body[|f.name| + 1..] == Escape(v);
    case None =>
      assert body == f.name + ['?'];
      NameEndsAt(body, |f.name|);
  }

  lemma NameEndsAt(part: string, k: nat)
    requires k < |part| && (part[k] == '=' || part[k] == '?')
    requires forall i :: 0 <= i < k ==> part[i] != '=' && part[i] != '?'
    ensures NameEnd(part) == k
  {
  }

  lemma {:induction false} SplitMore(s: string, tail: string, c: char)
    requires c !in tail
    ensures SplitOn(s + [c] + tail, c) == SplitOn(s, c) + [tail]
    decreases |s|
  {
    var k := IndexOf(s, c);
    if k == |s| {
      SplitAtFirst(s, tail, c);
      SplitOfJoin([tail], c);
    } else {
      var head, rest := s[..k], s[k + 1..];
      SplitMore(rest, tail, c);
      assert s == head + [c] + rest;
      SplitAtFirst(head, rest, c);
      Regroup(head, [c], rest, tail);
      SplitAtFirst(head, rest + [c] + tail, c);
    }
  }

  lemma Regroup(head: string, c: string, rest: string, tail: string)
    ensures head + c + rest + c + tail == head + c + (rest + c + tail)
  {
  }

  lemma {:induction false} ReadFieldsAdd(parts: seq<string>, last: string)
    ensures ReadFields(parts + [last]) == ReadFields(parts) + [ReadField(last)]
  {
    if parts == [] {
      assert parts + [last] == [last];
    } else {
      assert (parts + [last])[1..] == parts[1..] + [last];
      ReadFieldsAdd(parts[1..], last);
    }
  }

  lemma {:induction false} FieldsAreRead(version: string, fields: seq<Field>)
    requires PlainNames(fields) && '|' !in version
    ensures Decode(version + FieldsText(fields)) == fields
  {
    if fields == [] {
      SplitOfJoin([version], '|');
      assert version + FieldsText(fields) == version;
    } else {
      var init, last := fields[..|fields| - 1], fields[|fields| - 1];
      calc {
        Decode(version + FieldsText(fields));
        { assert version + (FieldsText(init) + FieldText(last)) == version + FieldsText(init) + FieldText(last); }
        Decode(version + FieldsText(init) + FieldText(last));
        { LastIsRead(version + FieldsText(init), last); }
        Decode(version + FieldsText(init)) + [last];
        { FieldsAreRead(version, init); }
        init + [last];
        fields;
      }
    }
  }

  lemma BodyFollowsBar(key: string, f: Field)
    ensures key + FieldText(f) == key + ['|'] + Body(f)
  {
    assert FieldText(f) == ['|'] + Body(f);
  }

  lemma LastIsRead(key: string, last: Field)
    requires PlainName(last.name)
    ensures Decode(key + FieldText(last)) == Decode(key) + [last]
  {
    FieldIsRead(last);
    BodyFollowsBar(key, last);
    SplitMore(key, Body(last), '|');
    DecodeMore(SplitOn(key, '|'), last);
  }

  lemma DecodeMore(parts: seq<string>, last: Field)
    requires parts != [] && ReadField(Body(last)) == last
    ensures ReadFields((parts + [Body(last)])[1..]) == ReadFields(parts[1..]) + [last]
  {
    assert (parts + [Body(last)])[1..] == parts[1..] + [Body(last)];
    ReadFieldsAdd(parts[1..], Body(last));
  }

  /** From the key alone, every field comes back: its name and its value, or
      that it is unknown. */
  lemma KeyIsRead(fields: seq<Field>)
    requires PlainNames(fields)
    ensures Decode(Encode(fields)) == fields
  {
    FieldsAreRead(KEY_VERSION, fields);
  }

  /** Two keys are the same exactly when every field is. */
  lemma KeyDecides(a: seq<Field>, b: seq<Field>)
    requires PlainNames(a) && PlainNames(b)
    ensures Encode(a) == Encode(b) <==> a == b
  {
    KeyIsRead(a);
    KeyIsRead(b);
  }
}
