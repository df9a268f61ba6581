/** One value made safe to be one level of a path on every platform. */
module SafeFilename {
  import opened Text

  /** What Unicode says of text, as given functions: composition, case mapping,
      and whether a value mixes scripts beyond the Latin and Greek pair. */
  datatype Unicode = Unicode(
    compose: string -> string,
    upper: string -> string,
    lower: string -> string,
    mixed: string -> bool)

  datatype SanitizeError =
    | PathTraversal(segment: string)
    | ReservedName(segment: string)
    | UnicodeConfusable(token: string, value: string)
    | EmptyAfterSanitize(token: string, value: string)

  datatype Sanitized = Safe(text: string) | Refused(error: SanitizeError)

  /** Controls and format characters, which no name keeps. */
  predicate Disallowed(c: char) {
    var code := c as int;
    || code < 0x20 || 0x80 <= code <= 0x9F || code == 0xAD
    || 0x200B <= code <= 0x200F || 0x2028 <= code <= 0x202E || 0x2060 <= code <= 0x206F
    || 0xFE00 <= code <= 0xFE0F || code == 0xFEFF || 0xFFF9 <= code <= 0xFFFB
  }

  function Strip(s: string): (t: string)
    ensures forall k :: 0 <= k < |t| ==> t[k] in s && !Disallowed(t[k])
  {
    if s == [] then []
    else if Disallowed(s[0]) then Strip(s[1..])
    else [s[0]] + Strip(s[1..])
  }

  predicate IsReservedChar(c: char) {
    c == '/' || c == '\\' || c == ':' || c == '?' || c == '*' || c == '"' || c == '<' || c == '>' || c == '|'
  }

  function Substituted(s: string): (t: string)
    ensures |t| == |s|
    ensures forall k :: 0 <= k < |s| ==> t[k] == if IsReservedChar(s[k]) then '_' else s[k]
  {
    seq(|s|, k requires 0 <= k < |s| => if IsReservedChar(s[k]) then '_' else s[k])
  }

  predicate IsEdge(c: char) {
    c == '.' || IsWhitespace(c)
  }

  predicate IsDots(s: string) {
    s == "." || s == ".."
  }

  /** The device names Windows keeps for itself. */
  predicate IsDevice(name: string) {
    || name == "CON" || name == "PRN" || name == "AUX" || name == "NUL"
    || (|name| == 4
        && (name[..3] == "COM" || name[..3] == "LPT")
        && ('1' <= name[3] <= '9' || name[3] == '\U{B9}' || name[3] == '\U{B2}' || name[3] == '\U{B3}'))
  }

  /** Windows reads a device name up to the first dot, in any case. */
  predicate Reserved(u: Unicode, segment: string) {
    IsDevice(u.upper(segment[..IndexOf(segment, '.')]))
  }

  /** The whole pipeline: what is left is one usable level of a path, a run of
      the composed characters with the reserved ones replaced. */
  function Sanitize(u: Unicode, token: string, raw: string): (r: Sanitized)
    ensures r.Safe? ==> IsLevel(r.text) && !Reserved(u, r.text) && !u.mixed(r.text)
    ensures r.Safe? ==> Part(Substituted(Strip(u.compose(raw))), r.text)
  {
    var stripped := Strip(u.compose(raw));
    if IsDots(stripped) then Refused(PathTraversal(stripped))
    else
      var r := Judge(s => Reserved(u, s), u.mixed, token, raw, Trim(Substituted(stripped), IsEdge));
      TrimmedIsLevel(stripped);
      r
  }

  /** Whether the level `raw` was trimmed to may be used: not empty, no device
      name, no mixed scripts. */
  function Judge(reserved: string -> bool, mixed: string -> bool, token: string, raw: string, s: string): (r: Sanitized)
    ensures r.Safe? ==> r.text == s && s != [] && !reserved(s) && !mixed(s)
  {
    if s == [] then Refused(EmptyAfterSanitize(token, raw))
    else if reserved(s) then Refused(ReservedName(s))
    else if mixed(s) then Refused(UnicodeConfusable(token, s))
    else Safe(s)
  }

  /** One usable level: not empty, no separator or reserved character, no
      control, and neither edge a dot or a blank. */
  predicate IsLevel(s: string) {
    && s != [] && !IsEdge(s[0]) && !IsEdge(s[|s| - 1])
    && IsClean(s)
  }

  predicate IsClean(s: string) {
    forall k :: 0 <= k < |s| ==> !IsReservedChar(s[k]) && !Disallowed(s[k])
  }

  lemma SubstitutedIsClean(s: string)
    requires forall k :: 0 <= k < |s| ==> !Disallowed(s[k])
    ensures IsClean(Substituted(s))
  {
  }

  lemma TrimmedIsLevel(s: string)
    requires forall k :: 0 <= k < |s| ==> !Disallowed(s[k])
    ensures var t := Trim(Substituted(s), IsEdge); t != [] ==> IsLevel(t)
  {
    SubstitutedIsClean(s);
    CutKeeps(Substituted(s), Trim(Substituted(s), IsEdge));
  }

  lemma CutKeeps(s: string, t: string)
    requires IsClean(s) && Part(s, t)
    ensures IsClean(t)
  {
  }

  /** A value already safe passes unchanged, so passing twice changes nothing. */
  lemma SafeStaysSame(u: Unicode, token: string, level: string)
    requires IsLevel(level) && u.compose(level) == level
    ensures Sanitize(u, token, level)
      == if Reserved(u, level) then Refused(ReservedName(level))
         else if u.mixed(level) then Refused(UnicodeConfusable(token, level))
         else Safe(level)
  {
    StripKeepsClean(level);
    assert Substituted(level) == level;
  }

  lemma {:induction false} StripKeepsClean(s: string)
    requires forall k :: 0 <= k < |s| ==> !Disallowed(s[k])
    ensures Strip(s) == s
  {
    if s != [] {
      StripKeepsClean(s[1..]);
    }
  }
}
