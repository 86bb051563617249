/** The allow-list filter `accept(uri, branch)` of core.js, driven by the
    comma-separated `uris` and `branches` module settings. */
module Accept {
  import opened Values

  /** The whitespace `String.prototype.trim` removes that the model knows:
      space, tab, line feed, vertical tab, form feed, carriage return,
      no-break space and the byte-order mark. */
  predicate Blank(c: char) {
    c == ' ' || c == '\t' || c == '\n' || c == '\U{000B}' || c == '\U{000C}' || c == '\r'
    || c == '\U{00A0}' || c == '\U{FEFF}'
  }

  function TrimStart(s: string): (r: string)
    ensures |r| <= |s| && r == s[|s| - |r|..]
    ensures r != [] ==> !Blank(r[0])
    ensures forall i :: 0 <= i < |s| - |r| ==> Blank(s[i])
  {
    if s != [] && Blank(s[0]) then TrimStart(s[1..]) else s
  }

  function TrimEnd(s: string): (r: string)
    ensures |r| <= |s| && r == s[..|r|]
    ensures r != [] ==> !Blank(r[|r| - 1])
    ensures forall i :: |r| <= i < |s| ==> Blank(s[i])
  {
    if s != [] && Blank(s[|s| - 1]) then TrimEnd(s[..|s| - 1]) else s
  }

  /** `s.trim()`: no blank at either end, and only blanks removed. */
  function Trim(s: string): (r: string)
    ensures r != [] ==> !Blank(r[0]) && !Blank(r[|r| - 1])
    ensures exists a, b :: 0 <= a <= b <= |s| && r == s[a..b]
                && (forall i :: 0 <= i < a ==> Blank(s[i])) && (forall i :: b <= i < |s| ==> Blank(s[i]))
  {
    var t := TrimStart(s);
    var r := TrimEnd(t);
    assert r == s[|s| - |t|..|s| - |t| + |r|];
    assert forall i :: |s| - |t| + |r| <= i < |s| ==> s[i] == t[i - (|s| - |t|)];
    r
  }

  /** `s.split(',')`: the pieces between commas, at least one. */
  function Split(s: string): (parts: seq<string>)
    ensures |parts| > 0
    ensures forall i, j :: 0 <= i < |parts| && 0 <= j < |parts[i]| ==> parts[i][j] != ','
    decreases |s|
  {
    if s == [] then [""]
    else if s[0] == ',' then [""] + Split(s[1..])
    else var rest := Split(s[1..]); [[s[0]] + rest[0]] + rest[1..]
  }

  /** `parts.join(',')`. */
  function Join(parts: seq<string>): string
    requires |parts| > 0
    decreases |parts|
  {
    if |parts| == 1 then parts[0] else parts[0] + "," + Join(parts[1..])
  }

  /** Splitting on commas loses nothing: joining the pieces gives back the
      setting exactly. */
  lemma {:induction false} SplitJoin(s: string)
    ensures Join(Split(s)) == s
    decreases |s|
  {
    if s != [] {
      SplitJoin(s[1..]);
      var rest := Split(s[1..]);
      if s[0] != ',' {
        if |rest| == 1 {
          assert [s[0]] + rest[0] == s;
        } else {
          var parts := [[s[0]] + rest[0]] + rest[1..];
          assert parts[1..] == rest[1..];
          assert Join(rest) == rest[0] + "," + Join(rest[1..]);
        }
      }
    }
  }

  /** The allow-list settings: each is the raw comma-separated text, or
      `None` when unset (an empty text counts as unset, being falsy). */
  datatype AllowList = AllowList(uris: Option<string>, branches: Option<string>)

  predicate Listed(setting: Option<string>, value: string) {
    setting.None? || setting.value == "" || Trim(value) in Split(setting.value)
  }

  /** `accept(uri, branch)`. */
  function Accepts(allow: AllowList, uri: string, branch: string): (ok: bool)
    ensures ok <==> Listed(allow.uris, uri) && Listed(allow.branches, branch)
  {
    if allow.uris.Some? && allow.uris.value != "" && Trim(uri) !in Split(allow.uris.value) then false
    else if allow.branches.Some? && allow.branches.value != "" && Trim(branch) !in Split(allow.branches.value) then false
    else true
  }

  /** With no allow-list everything is accepted, and a uri containing a
      comma is never on a non-empty list (each listed entry is comma-free). */
  lemma AcceptsBounds(allow: AllowList, uri: string, branch: string)
    ensures allow == AllowList(None, None) ==> Accepts(allow, uri, branch)
    ensures (allow.uris.Some? && allow.uris.value != "" && ',' in Trim(uri)) ==> !Accepts(allow, uri, branch)
  {
    if allow.uris.Some? && allow.uris.value != "" && ',' in Trim(uri) {
      var parts := Split(allow.uris.value);
      var t := Trim(uri);
      var j :| 0 <= j < |t| && t[j] == ',';
      assert forall i :: 0 <= i < |parts| ==> parts[i] != t;
    }
  }
}
