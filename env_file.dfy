/**
 * The `.env.production` rewriting of the tunnel manager (tools/tunnel-manager.cjs):
 * `updateEnvVar` replaces the first `KEY=...` line or appends one, and `updateEnvFile`
 * threads the file text through one such update per known tunnel URL.
 *
 * The regular expression `^KEY=.*$` with the `m` flag is spelled out: a line starts at the
 * beginning of the text or after a line terminator, and `.` matches anything but one.
 */
module EnvFile {
  import opened Wrappers

  /** The line terminators of JavaScript regular expressions. */
  predicate IsLineTerminator(c: char) {
    c == '\n' || c == '\r' || c == '\U{2028}' || c == '\U{2029}'
  }

  predicate NoLineTerminator(s: string) {
    forall k :: 0 <= k < |s| ==> !IsLineTerminator(s[k])
  }

  /** A key that stands for itself inside a regular expression: letters, digits and underscores. */
  predicate PlainKey(key: string) {
    |key| > 0 && forall k :: 0 <= k < |key| ==> ('A' <= key[k] <= 'Z' || 'a' <= key[k] <= 'z' || '0' <= key[k] <= '9' || key[k] == '_')
  }

  /** `^` in multi-line mode: position `i` begins a line. */
  predicate LineStart(s: string, i: int) {
    0 <= i <= |s| && (i == 0 || IsLineTerminator(s[i - 1]))
  }

  /** A line of `s` starts at `i` with `KEY=`. */
  predicate KeyLineAt(s: string, key: string, i: int) {
    LineStart(s, i) && i + |key| + 1 <= |s| && s[i..i + |key| + 1] == key + "="
  }

  /** `KEY=value`, the line the update writes. */
  function Line(key: string, value: string): string {
    key + "=" + value
  }

  /** `.*$`: the end of the line running from `j`, the next line terminator or the end of the text. */
  function LineEnd(s: string, j: nat): (r: nat)
    requires j <= |s|
    ensures j <= r <= |s|
    ensures r == |s| || IsLineTerminator(s[r])
    ensures forall k :: j <= k < r ==> !IsLineTerminator(s[k])
    decreases |s| - j
  {
    if j == |s| || IsLineTerminator(s[j]) then j else LineEnd(s, j + 1)
  }

  /** The leftmost match of `^KEY=` at or after `from`. */
  function FirstKeyLine(s: string, key: string, from: nat): (r: Option<nat>)
    ensures r.Some? ==> from <= r.value && KeyLineAt(s, key, r.value)
    decreases |s| - from
  {
    if from >= |s| then None
    else if KeyLineAt(s, key, from) then Some(from)
    else FirstKeyLine(s, key, from + 1)
  }

  /** The match is the leftmost one: no line starts with `KEY=` before it, nor anywhere when there is none. */
  lemma {:induction false} FirstKeyLineLeftmost(s: string, key: string, from: nat)
    ensures FirstKeyLine(s, key, from).Some? ==>
      forall j :: from <= j < FirstKeyLine(s, key, from).value ==> !KeyLineAt(s, key, j)
    ensures FirstKeyLine(s, key, from).None? ==> forall j :: from <= j ==> !KeyLineAt(s, key, j)
    decreases |s| - from
  {
    if from < |s| && !KeyLineAt(s, key, from) {
      FirstKeyLineLeftmost(s, key, from + 1);
    }
  }

  /** What `updateEnvVar` puts before an appended line: a newline, unless the text already ends with one. */
  function Separator(content: string): (sep: string)
    ensures sep == "" <==> |content| > 0 && content[|content| - 1] == '\n'
    ensures sep != "" ==> sep == "\n"
  {
    if |content| > 0 && content[|content| - 1] == '\n' then "" else "\n"
  }

  /** The replacing branch: the line from `i` to its end becomes `KEY=value`. */
  function Replaced(content: string, key: string, value: string, i: nat): (r: string)
    requires i <= |content|
    ensures i <= |r| && r[..i] == content[..i] && r[i..] == Line(key, value) + content[LineEnd(content, i)..]
  {
    var tail := Line(key, value) + content[LineEnd(content, i)..];
    SplitAt(content[..i], tail);
    content[..i] + tail
  }

  /** The appending branch: a separator, `KEY=value` and a newline after the text. */
  function Appended(content: string, key: string, value: string): (r: string)
    ensures |content| <= |r| && r[..|content|] == content && r[|content|..] == Separator(content) + (Line(key, value) + "\n")
  {
    var tail := Separator(content) + (Line(key, value) + "\n");
    SplitAt(content, tail);
    content + tail
  }

  /**
   * `updateEnvVar`: when a line starts with `KEY=`, the first such line becomes `KEY=value` and the
   * text before and after it is kept; otherwise `KEY=value` and a newline are appended, after a
   * newline of their own unless the text already ends with one.
   */
  function UpdateEnvVar(content: string, key: string, value: string): (r: string)
    requires PlainKey(key) && '$' !in value
    ensures FirstKeyLine(content, key, 0).Some? ==>
      var i := FirstKeyLine(content, key, 0).value;
      i <= |r| && r[..i] == content[..i] && r[i..] == Line(key, value) + content[LineEnd(content, i)..]
    ensures FirstKeyLine(content, key, 0).None? ==>
      |content| <= |r| && r[..|content|] == content && r[|content|..] == Separator(content) + (Line(key, value) + "\n")
  {
    match FirstKeyLine(content, key, 0)
    case Some(i) => Replaced(content, key, value, i)
    case None => Appended(content, key, value)
  }

  /** The two halves of a concatenation. */
  lemma SplitAt(a: string, b: string)
    ensures (a + b)[..|a|] == a && (a + b)[|a|..] == b
  {
  }

  /** Updating an empty file writes a newline, the line and a newline. */
  lemma EmptyContent(key: string, value: string)
    requires PlainKey(key) && '$' !in value
    ensures UpdateEnvVar("", key, value) == "\n" + key + "=" + value + "\n"
  {
  }

  /** A plain key holds no line terminator, and neither does `KEY=`. */
  lemma PlainKeyLine(key: string)
    requires PlainKey(key)
    ensures NoLineTerminator(key + "=")
  {
    var ke := key + "=";
    forall k | 0 <= k < |ke| ensures !IsLineTerminator(ke[k]) {
      if k < |key| {
        assert ke[k] == key[k];
      }
    }
  }

  /** Whether a line starting at `j` begins with `KEY=` depends only on the text up to the `=`. */
  lemma KeyLineSamePrefix(s: string, t: string, key: string, j: nat, n: nat)
    requires n <= |s| && n <= |t| && s[..n] == t[..n] && j + |key| + 1 <= n
    ensures KeyLineAt(s, key, j) <==> KeyLineAt(t, key, j)
  {
    assert s[j..j + |key| + 1] == s[..n][j..j + |key| + 1];
    assert t[j..j + |key| + 1] == t[..n][j..j + |key| + 1];
    if j > 0 {
      assert s[j - 1] == s[..n][j - 1];
      assert t[j - 1] == t[..n][j - 1];
    }
  }

  /** A text that agrees with `s` up to the `=` of its first key line has its first key line there too. */
  lemma FirstKeyLineSamePrefix(s: string, t: string, key: string, i: nat, n: nat)
    requires FirstKeyLine(s, key, 0) == Some(i)
    requires n == i + |key| + 1 && n <= |t| && s[..n] == t[..n]
    ensures FirstKeyLine(t, key, 0) == Some(i)
  {
    FirstKeyLineLeftmost(s, key, 0);
    SameKeyLinesBelow(s, t, key, i, n);
    FirstKeyLineAt(t, key, i);
  }

  /** Texts that agree up to `n` have the same key lines at every position up to `i`. */
  lemma SameKeyLinesBelow(s: string, t: string, key: string, i: nat, n: nat)
    requires n <= |s| && n <= |t| && s[..n] == t[..n] && i + |key| + 1 <= n
    requires KeyLineAt(s, key, i) && forall j :: 0 <= j < i ==> !KeyLineAt(s, key, j)
    ensures KeyLineAt(t, key, i) && forall j :: 0 <= j < i ==> !KeyLineAt(t, key, j)
  {
    forall j | 0 <= j <= i ensures KeyLineAt(t, key, j) <==> KeyLineAt(s, key, j) {
      KeyLineSamePrefix(s, t, key, j, n);
    }
  }

  /** `KEY=value` holds no line terminator when the key is plain and the value is one line. */
  lemma OneLine(key: string, value: string)
    requires PlainKey(key) && NoLineTerminator(value)
    ensures NoLineTerminator(Line(key, value))
  {
    var ke := key + "=";
    var line := Line(key, value);
    PlainKeyLine(key);
    forall k | 0 <= k < |line| ensures !IsLineTerminator(line[k]) {
      if k < |ke| {
        assert line[k] == ke[k];
      } else {
        assert line[k] == value[k - |ke|];
      }
    }
  }

  /** After a replacement the first key line is still at `i`, reads `KEY=value`, and ends there. */
  lemma ReplacedLine(content: string, key: string, value: string, i: nat)
    requires FirstKeyLine(content, key, 0) == Some(i)
    ensures var r := Replaced(content, key, value, i);
      var line := Line(key, value);
      && FirstKeyLine(r, key, 0) == Some(i)
      && i + |line| <= |r| && r[i..i + |line|] == line
      && (i + |line| == |r| || IsLineTerminator(r[i + |line|]))
  {
    var rest := content[LineEnd(content, i)..];
    var r := Replaced(content, key, value, i);
    assert rest == [] || IsLineTerminator(rest[0]);
    LineBefore(r, i, key, value, rest);
    KeyLineKept(content, r, key, i);
  }

  /** When the text from `i` on is `KEY=value` and then the end or a line terminator, `KEY=value` is a whole line there. */
  lemma LineBefore(r: string, i: nat, key: string, value: string, rest: string)
    requires i <= |r| && r[i..] == Line(key, value) + rest
    requires rest == [] || IsLineTerminator(rest[0])
    ensures var line := Line(key, value);
      && i + |line| <= |r| && r[i..i + |line|] == line
      && (i + |line| == |r| || IsLineTerminator(r[i + |line|]))
      && i + |key| + 1 <= |r| && r[i..i + |key| + 1] == key + "="
  {
    SliceOfHead(r, i, Line(key, value), rest);
    PrefixOfSlice(r, i, key + "=", value);
  }

  /** Text that keeps everything before the first key line and puts `KEY=` at it keeps that first key line. */
  lemma KeyLineKept(content: string, r: string, key: string, i: nat)
    requires FirstKeyLine(content, key, 0) == Some(i)
    requires i + |key| + 1 <= |r| && r[..i] == content[..i] && r[i..i + |key| + 1] == key + "="
    ensures FirstKeyLine(r, key, 0) == Some(i)
  {
    var n := i + |key| + 1;
    PrefixAgree(r, content, i, n);
    FirstKeyLineSamePrefix(content, r, key, i, n);
  }

  /** After an append the first key line is the appended one, reads `KEY=value`, and ends in a newline. */
  lemma AppendedLine(content: string, key: string, value: string)
    requires PlainKey(key) && FirstKeyLine(content, key, 0).None?
    ensures var r := Appended(content, key, value);
      var line := Line(key, value);
      var p := |content| + |Separator(content)|;
      && FirstKeyLine(r, key, 0) == Some(p)
      && p + |line| < |r| && r[p..p + |line|] == line && r[p + |line|] == '\n'
  {
    AppendedIsFirst(content, key, value);
    AppendedText(content, key, value);
  }

  /** The appended text holds `KEY=value` after the separator, followed by a newline. */
  lemma AppendedText(content: string, key: string, value: string)
    ensures var r := Appended(content, key, value);
      var line := Line(key, value);
      var p := |content| + |Separator(content)|;
      p + |line| < |r| && r[p..p + |line|] == line && r[p + |line|] == '\n'
  {
    LineAfter(Appended(content, key, value), |content|, Separator(content), Line(key, value));
  }

  /** When the text from `i` on is `sep`, `line` and a newline, `line` stands after `sep` and a newline after it. */
  lemma LineAfter(r: string, i: nat, sep: string, line: string)
    requires i <= |r| && r[i..] == sep + (line + "\n")
    ensures var p := i + |sep|;
      p + |line| < |r| && r[p..p + |line|] == line && r[p + |line|] == '\n'
  {
    DropHead(r, i, sep, line + "\n");
    SliceOfHead(r, i + |sep|, line, "\n");
  }

  /** After an append, the first key line of the text is the appended one. */
  lemma AppendedLineIsFirst(content: string, key: string, value: string)
    requires PlainKey(key) && '$' !in value
    requires FirstKeyLine(content, key, 0).None?
    ensures var p := |content| + (if |content| > 0 && content[|content| - 1] == '\n' then 0 else 1);
      FirstKeyLine(UpdateEnvVar(content, key, value), key, 0) == Some(p)
  {
    AppendedLine(content, key, value);
    assert UpdateEnvVar(content, key, value) == Appended(content, key, value);
  }

  /** The appended line is the first key line of the appended text. */
  lemma AppendedIsFirst(content: string, key: string, value: string)
    requires PlainKey(key) && FirstKeyLine(content, key, 0).None?
    ensures FirstKeyLine(Appended(content, key, value), key, 0) == Some(|content| + |Separator(content)|)
  {
    var r := Appended(content, key, value);
    var p := |content| + |Separator(content)|;
    AppendedIsKeyLine(content, key, value);
    NoKeyLineBeforeNewline(content, r, key, p);
    FirstKeyLineAt(r, key, p);
  }

  /** `line` is a whole line of `s` starting at `i`. */
  predicate LineAt(s: string, line: string, i: int) {
    LineStart(s, i) && i + |line| <= |s| && s[i..i + |line|] == line
    && (i + |line| == |s| || IsLineTerminator(s[i + |line|]))
  }

  /** After the update the text has a whole line equal to `KEY=value`. */
  lemma ResultHasLine(content: string, key: string, value: string)
    requires PlainKey(key) && '$' !in value
    ensures exists i :: LineAt(UpdateEnvVar(content, key, value), Line(key, value), i)
  {
    match FirstKeyLine(content, key, 0)
    case Some(i) =>
      ReplacedHasLine(content, key, value, i);
      assert UpdateEnvVar(content, key, value) == Replaced(content, key, value, i);
    case None =>
      AppendedHasLine(content, key, value);
      assert UpdateEnvVar(content, key, value) == Appended(content, key, value);
  }

  lemma ReplacedHasLine(content: string, key: string, value: string, i: nat)
    requires FirstKeyLine(content, key, 0) == Some(i)
    ensures LineAt(Replaced(content, key, value, i), Line(key, value), i)
  {
    ReplacedLine(content, key, value, i);
    assert KeyLineAt(Replaced(content, key, value, i), key, i);
  }

  lemma AppendedHasLine(content: string, key: string, value: string)
    requires PlainKey(key) && FirstKeyLine(content, key, 0).None?
    ensures LineAt(Appended(content, key, value), Line(key, value), |content| + |Separator(content)|)
  {
    AppendedLine(content, key, value);
    assert KeyLineAt(Appended(content, key, value), key, |content| + |Separator(content)|);
  }

  /** Updating a second time with the same key and a one-line value changes nothing. */
  lemma UpdateIdempotent(content: string, key: string, value: string)
    requires PlainKey(key) && '$' !in value && NoLineTerminator(value)
    ensures var r := UpdateEnvVar(content, key, value);
      UpdateEnvVar(r, key, value) == r
  {
    OneLine(key, value);
    if FirstKeyLine(content, key, 0).Some? {
      ReplaceIdempotent(content, key, value);
    } else {
      AppendIdempotent(content, key, value);
    }
  }

  /** The replacing branch is idempotent. */
  lemma ReplaceIdempotent(content: string, key: string, value: string)
    requires PlainKey(key) && '$' !in value && NoLineTerminator(Line(key, value))
    requires FirstKeyLine(content, key, 0).Some?
    ensures var r := UpdateEnvVar(content, key, value);
      UpdateEnvVar(r, key, value) == r
  {
    var i := FirstKeyLine(content, key, 0).value;
    ReplacedRewrite(content, key, value, i);
  }

  /** Updating a replaced text rewrites its key line to itself. */
  lemma ReplacedRewrite(content: string, key: string, value: string, i: nat)
    requires PlainKey(key) && '$' !in value && NoLineTerminator(Line(key, value))
    requires FirstKeyLine(content, key, 0) == Some(i)
    ensures UpdateEnvVar(Replaced(content, key, value, i), key, value) == Replaced(content, key, value, i)
  {
    ReplacedLine(content, key, value, i);
    KeyLineFixed(Replaced(content, key, value, i), key, value, i);
  }

  /** After an append, the next update rewrites the appended line to itself. */
  lemma AppendIdempotent(content: string, key: string, value: string)
    requires PlainKey(key) && '$' !in value && NoLineTerminator(Line(key, value))
    requires FirstKeyLine(content, key, 0).None?
    ensures var r := UpdateEnvVar(content, key, value);
      UpdateEnvVar(r, key, value) == r
  {
    AppendedRewrite(content, key, value);
  }

  /** Updating an appended text rewrites the appended line to itself. */
  lemma AppendedRewrite(content: string, key: string, value: string)
    requires PlainKey(key) && '$' !in value && NoLineTerminator(Line(key, value))
    requires FirstKeyLine(content, key, 0).None?
    ensures UpdateEnvVar(Appended(content, key, value), key, value) == Appended(content, key, value)
  {
    AppendedLine(content, key, value);
    KeyLineFixed(Appended(content, key, value), key, value, |content| + |Separator(content)|);
  }

  /** A one-line text at `i`, followed by the end or a line terminator, ends its line. */
  lemma LineEndOfLine(s: string, i: nat, line: string)
    requires i + |line| <= |s| && s[i..i + |line|] == line && NoLineTerminator(line)
    requires i + |line| == |s| || IsLineTerminator(s[i + |line|])
    ensures LineEnd(s, i) == i + |line|
  {
    forall k | i <= k < i + |line| ensures !IsLineTerminator(s[k]) {
      assert s[k] == s[i..i + |line|][k - i];
    }
    LineEndAt(s, i, i + |line|);
  }

  /** Texts that agree before `i` and from `i` to `n` agree up to `n`. */
  lemma PrefixAgree(s: string, t: string, i: nat, n: nat)
    requires i <= n <= |s| && n <= |t| && s[..i] == t[..i] && s[i..n] == t[i..n]
    ensures s[..n] == t[..n]
  {
    assert s[..n] == s[..i] + s[i..n];
    assert t[..n] == t[..i] + t[i..n];
  }

  /** When the text from `i` on is `a + b`, it holds `a` at `i` and then the first character of `b`. */
  lemma SliceOfHead(s: string, i: nat, a: string, b: string)
    requires i <= |s| && s[i..] == a + b
    ensures i + |a| <= |s| && s[i..i + |a|] == a
    ensures b != [] ==> s[i + |a|] == b[0]
    ensures b == [] ==> i + |a| == |s|
  {
    assert s[i..i + |a|] == s[i..][..|a|];
    if b != [] {
      assert s[i + |a|] == s[i..][|a|];
    }
  }

  /** Where `a + b` stands at `i`, `a` stands at `i`. */
  lemma PrefixOfSlice(s: string, i: nat, a: string, b: string)
    requires i + |a + b| <= |s| && s[i..i + |a + b|] == a + b
    ensures s[i..i + |a|] == a
  {
    assert s[i..i + |a|] == s[i..i + |a + b|][..|a|];
    SplitAt(a, b);
  }

  /**
   * Text that starts with `content`, which has no key line, has none before a newline standing at
   * the end of `content` or just after it: `KEY=` holds no line terminator, so a key line starting
   * before that newline would lie inside `content`.
   */
  lemma NoKeyLineBeforeNewline(content: string, r: string, key: string, p: nat)
    requires PlainKey(key) && FirstKeyLine(content, key, 0).None?
    requires |content| <= |r| && r[..|content|] == content
    requires 0 < p <= |content| + 1 && p <= |r| && r[p - 1] == '\n'
    ensures forall j :: 0 <= j < p ==> !KeyLineAt(r, key, j)
  {
    var ke := key + "=";
    PlainKeyLine(key);
    FirstKeyLineLeftmost(content, key, 0);
    forall j | 0 <= j < p ensures !KeyLineAt(r, key, j) {
      if j + |ke| <= p - 1 {
        KeyLineSamePrefix(r, content, key, j, |content|);
      } else if j + |ke| <= |r| {
        assert r[j..j + |ke|][p - 1 - j] == '\n';
        assert !IsLineTerminator(ke[p - 1 - j]);
      }
    }
  }

  /** The appended line is a key line, just after a newline. */
  lemma AppendedIsKeyLine(content: string, key: string, value: string)
    ensures var p := |content| + |Separator(content)|;
      KeyLineAt(Appended(content, key, value), key, p) && 0 < p <= |Appended(content, key, value)|
      && Appended(content, key, value)[p - 1] == '\n'
  {
    KeyLineAfter(Appended(content, key, value), content, Separator(content), key, value);
  }

  /** Text made of `content`, a separator that ends a line and `KEY=value` has a key line after the separator. */
  lemma KeyLineAfter(r: string, content: string, sep: string, key: string, value: string)
    requires |content| <= |r| && r[..|content|] == content && r[|content|..] == sep + (Line(key, value) + "\n")
    requires sep == "\n" || (sep == "" && |content| > 0 && content[|content| - 1] == '\n')
    ensures var p := |content| + |sep|;
      KeyLineAt(r, key, p) && 0 < p <= |r| && r[p - 1] == '\n'
  {
    var p := |content| + |sep|;
    LineAfter(r, |content|, sep, Line(key, value));
    PrefixOfSlice(r, p, key + "=", value);
    if sep == "" {
      assert r[p - 1] == r[..|content|][p - 1];
    } else {
      assert r[p - 1] == r[|content|..][0];
    }
  }

  /** When the text from `i` on is `a + b`, the text from `i + |a|` on is `b`. */
  lemma DropHead(s: string, i: nat, a: string, b: string)
    requires i <= |s| && s[i..] == a + b
    ensures i + |a| <= |s| && s[i + |a|..] == b
  {
    assert s[i + |a|..] == s[i..][|a|..];
  }

  /** The first key line is the key line with none before it. */
  lemma FirstKeyLineAt(s: string, key: string, p: nat)
    requires KeyLineAt(s, key, p) && forall j :: 0 <= j < p ==> !KeyLineAt(s, key, j)
    ensures FirstKeyLine(s, key, 0) == Some(p)
  {
    FirstKeyLineLeftmost(s, key, 0);
  }

  /** Updating a text whose first key line already is the whole line `KEY=value` gives the text back. */
  lemma KeyLineFixed(s: string, key: string, value: string, i: nat)
    requires PlainKey(key) && '$' !in value && NoLineTerminator(Line(key, value))
    requires FirstKeyLine(s, key, 0) == Some(i)
    requires i + |Line(key, value)| <= |s| && s[i..i + |Line(key, value)|] == Line(key, value)
    requires i + |Line(key, value)| == |s| || IsLineTerminator(s[i + |Line(key, value)|])
    ensures UpdateEnvVar(s, key, value) == s
  {
    LineEndOfLine(s, i, Line(key, value));
    assert UpdateEnvVar(s, key, value) == Replaced(s, key, value, i);
    ReplaceSame(s, key, value, i);
  }

  /** Replacing a line that already reads `KEY=value` up to its end gives the text back. */
  lemma ReplaceSame(s: string, key: string, value: string, i: nat)
    requires i + |Line(key, value)| <= |s| && s[i..i + |Line(key, value)|] == Line(key, value)
    requires LineEnd(s, i) == i + |Line(key, value)|
    ensures Replaced(s, key, value, i) == s
  {
    var line := Line(key, value);
    assert s == s[..i] + s[i..i + |line|] + s[i + |line|..];
  }

  /** A line end is found where the first terminator after the start stands. */
  lemma {:induction false} LineEndAt(s: string, j: nat, e: nat)
    requires j <= e <= |s| && (e == |s| || IsLineTerminator(s[e]))
    requires forall k :: j <= k < e ==> !IsLineTerminator(s[k])
    ensures LineEnd(s, j) == e
    decreases e - j
  {
    if j < e {
      LineEndAt(s, j + 1, e);
    }
  }

  /** `line` is a whole line of `s` somewhere. */
  predicate HasLine(s: string, line: string) {
    exists i :: 0 <= i <= |s| && LineAt(s, line, i)
  }

  /** Two plain keys open the same line only when they are equal: neither holds `=`. */
  lemma SameStartSameKey(s: string, k1: string, k2: string, i: nat)
    ensures PlainKey(k1) && PlainKey(k2) && KeyLineAt(s, k1, i) && KeyLineAt(s, k2, i) ==> k1 == k2
  {
    if PlainKey(k1) && PlainKey(k2) && KeyLineAt(s, k1, i) && KeyLineAt(s, k2, i) {
      assert forall m :: 0 <= m <= |k1| ==> s[i + m] == s[i..i + |k1| + 1][m] == (k1 + "=")[m];
      assert forall m :: 0 <= m <= |k2| ==> s[i + m] == s[i..i + |k2| + 1][m] == (k2 + "=")[m];
      var n := if |k1| <= |k2| then |k1| else |k2|;
      assert (k1 + "=")[n] == (k2 + "=")[n];
      assert |k1| == |k2|;
      assert forall m :: 0 <= m < |k1| ==> k1[m] == (k1 + "=")[m] == (k2 + "=")[m] == k2[m];
    }
  }

  /** A whole line that ends before `n` is kept by a text that agrees with `s` up to `n`. */
  lemma LineKeptBefore(s: string, r: string, line: string, i: nat, n: nat)
    requires LineAt(s, line, i) && i + |line| < n <= |s| && n <= |r| && r[..n] == s[..n]
    ensures LineAt(r, line, i)
  {
    assert r[i..i + |line|] == r[..n][i..i + |line|];
    assert s[i..i + |line|] == s[..n][i..i + |line|];
    assert r[i + |line|] == r[..n][i + |line|];
    assert s[i + |line|] == s[..n][i + |line|];
    if i > 0 {
      assert r[i - 1] == r[..n][i - 1];
      assert s[i - 1] == s[..n][i - 1];
    }
  }

  /** A whole line at the end of `s` is kept by a text that continues `s` with a line terminator. */
  lemma LineKeptAtEnd(s: string, r: string, line: string, i: nat)
    requires LineAt(s, line, i) && i + |line| == |s| < |r| && r[..|s|] == s && IsLineTerminator(r[|s|])
    ensures LineAt(r, line, i)
  {
    assert r[i..i + |line|] == r[..|s|][i..i + |line|];
    if i > 0 {
      assert r[i - 1] == r[..|s|][i - 1];
    }
  }

  /** A whole line after position `e` of `s` is kept, shifted, by a text that ends with `s[e..]`. */
  lemma LineKeptAfter(s: string, r: string, line: string, i: nat, e: nat, d: nat)
    requires LineAt(s, line, i) && e < i && d <= |r| && r[d..] == s[e..]
    ensures LineAt(r, line, i - e + d)
  {
    var i' := i - e + d;
    assert |r| - d == |s| - e;
    assert r[i'..i' + |line|] == r[d..][i - e..i - e + |line|];
    assert s[i..i + |line|] == s[e..][i - e..i - e + |line|];
    assert r[i' - 1] == r[d..][i - 1 - e];
    assert s[i - 1] == s[e..][i - 1 - e];
    if i + |line| < |s| {
      assert r[i' + |line|] == r[d..][i + |line| - e];
      assert s[i + |line|] == s[e..][i + |line| - e];
    }
  }

  /** An append keeps every whole one-line line of the text. */
  lemma KeptByAppend(content: string, key: string, value: string, line: string, i: nat)
    requires LineAt(content, line, i) && |line| > 0 && NoLineTerminator(line)
    ensures LineAt(Appended(content, key, value), line, i)
  {
    var r := Appended(content, key, value);
    assert r[..|content|] == content[..|content|];
    if i + |line| < |content| {
      LineKeptBefore(content, r, line, i, |content|);
    } else {
      assert content[|content| - 1] == content[i..i + |line|][|line| - 1];
      assert r[|content|] == r[|content|..][0];
      LineKeptAtEnd(content, r, line, i);
    }
  }

  /** Replacing the first line of another plain key keeps a whole line `K=v` with a one-line value. */
  lemma KeptByReplace(content: string, k2: string, v2: string, j: nat, k1: string, v1: string, i: nat)
    requires PlainKey(k1) && PlainKey(k2) && k1 != k2 && FirstKeyLine(content, k2, 0) == Some(j)
    requires LineAt(content, Line(k1, v1), i) && NoLineTerminator(Line(k1, v1))
    ensures HasLine(Replaced(content, k2, v2, j), Line(k1, v1))
  {
    PrefixOfSlice(content, i, k1 + "=", v1);
    SameStartSameKey(content, k1, k2, i);
    if j < i {
      ReplacedKeepsLater(content, k2, v2, j, Line(k1, v1), i);
    } else {
      ReplacedKeepsEarlier(content, k2, v2, j, Line(k1, v1), i);
    }
  }

  /** A replacement keeps, shifted, a whole line after the replaced one. */
  lemma ReplacedKeepsLater(content: string, key: string, value: string, j: nat, line: string, i: nat)
    requires j < i && j <= |content| && LineAt(content, line, i)
    ensures HasLine(Replaced(content, key, value, j), line)
  {
    var r := Replaced(content, key, value, j);
    KeptAfterLine(content, r, line, i, j, Line(key, value));
    assert LineAt(r, line, i - LineEnd(content, j) + j + |Line(key, value)|);
  }

  /** A replacement keeps a whole one-line line before the replaced one. */
  lemma ReplacedKeepsEarlier(content: string, key: string, value: string, j: nat, line: string, i: nat)
    requires i < j && LineStart(content, j) && LineAt(content, line, i) && NoLineTerminator(line)
    ensures HasLine(Replaced(content, key, value, j), line)
  {
    var r := Replaced(content, key, value, j);
    KeptBeforeLine(content, r, line, i, j);
    assert LineAt(r, line, i);
  }

  /** A one-line line before the line starting at `j` is kept by a text that agrees up to `j`. */
  lemma KeptBeforeLine(content: string, r: string, line: string, i: nat, j: nat)
    requires LineAt(content, line, i) && NoLineTerminator(line) && i < j && LineStart(content, j)
    requires j <= |r| && r[..j] == content[..j]
    ensures LineAt(r, line, i)
  {
    assert forall m :: i <= m < i + |line| ==> content[m] == content[i..i + |line|][m - i];
    assert i + |line| < j;
    LineKeptBefore(content, r, line, i, j);
  }

  /** A line after the line starting at `j` is kept, shifted, when that line alone is rewritten to `tail`. */
  lemma KeptAfterLine(content: string, r: string, line: string, i: nat, j: nat, tail: string)
    requires LineAt(content, line, i) && j < i
    requires j <= |r| && r[j..] == tail + content[LineEnd(content, j)..]
    ensures LineAt(r, line, i - LineEnd(content, j) + j + |tail|)
  {
    var e := LineEnd(content, j);
    assert e < i;
    DropHead(r, j, tail, content[e..]);
    LineKeptAfter(content, r, line, i, e, j + |tail|);
  }

  /**
   * Updating another plain key keeps a whole line `K=v` whose value is one line: the line the
   * update rewrites opens with the other key, and the text around it, or before an append, is kept.
   */
  lemma UpdateKeepsLine(content: string, k1: string, v1: string, k2: string, v2: string)
    requires PlainKey(k1) && PlainKey(k2) && k1 != k2 && '$' !in v2 && NoLineTerminator(v1)
    requires HasLine(content, Line(k1, v1))
    ensures HasLine(UpdateEnvVar(content, k2, v2), Line(k1, v1))
  {
    var i :| 0 <= i <= |content| && LineAt(content, Line(k1, v1), i);
    OneLine(k1, v1);
    match FirstKeyLine(content, k2, 0)
    case None =>
      KeptByAppend(content, k2, v2, Line(k1, v1), i);
      assert UpdateEnvVar(content, k2, v2) == Appended(content, k2, v2);
    case Some(j) =>
      KeptByReplace(content, k2, v2, j, k1, v1, i);
      assert UpdateEnvVar(content, k2, v2) == Replaced(content, k2, v2, j);
  }

  /** No key occurs twice. */
  predicate DistinctKeys(keys: seq<string>) {
    forall a, b :: 0 <= a < b < |keys| ==> keys[a] != keys[b]
  }

  /** Updating keys other than `k` keeps a whole line `k=v` whose value is one line. */
  lemma {:induction false} UpdateAllKeepsLine(content: string, keys: seq<string>, value: string, k: string, v: string)
    requires forall kk :: kk in keys ==> PlainKey(kk)
    requires '$' !in value && PlainKey(k) && k !in keys && NoLineTerminator(v)
    requires HasLine(content, Line(k, v))
    ensures HasLine(UpdateAll(content, keys, value), Line(k, v))
    decreases |keys|
  {
    if keys != [] {
      UpdateKeepsLine(content, k, v, keys[0], value);
      UpdateAllKeepsLine(UpdateEnvVar(content, keys[0], value), keys[1..], value, k, v);
    }
  }

  /** After updating distinct plain keys with a one-line value, each of them has its whole line `KEY=value`. */
  lemma {:induction false} UpdateAllSetsKeys(content: string, keys: seq<string>, value: string)
    requires forall kk :: kk in keys ==> PlainKey(kk)
    requires '$' !in value && NoLineTerminator(value) && DistinctKeys(keys)
    ensures forall k :: k in keys ==> HasLine(UpdateAll(content, keys, value), Line(k, value))
    decreases |keys|
  {
    if keys != [] {
      var next := UpdateEnvVar(content, keys[0], value);
      ResultHasLine(content, keys[0], value);
      assert forall m :: 0 <= m < |keys[1..]| ==> keys[1..][m] == keys[m + 1] != keys[0];
      UpdateAllKeepsLine(next, keys[1..], value, keys[0], value);
      UpdateAllSetsKeys(next, keys[1..], value);
      forall k | k in keys ensures HasLine(UpdateAll(content, keys, value), Line(k, value)) {
        if k != keys[0] {
          assert k in keys[1..];
        }
      }
    }
  }

  /** A tunnel URL is known when present and non-empty (`if (apiUrl)`). */
  predicate Known(url: Option<string>) {
    url.Some? && url.value != ""
  }

  /** A key that stands for itself in the regular expression. */
  type EnvKey = k: string | PlainKey(k) witness "KEY"

  const ApiKeys: seq<EnvKey> := ["VITE_API_URL", "NETLIFY_API_URL"]
  const OllamaKeys: seq<EnvKey> := ["VITE_OLLAMA_URL", "OLLAMA_HOST"]

  /** Updates the keys one after another, each with the same value. */
  function UpdateAll(content: string, keys: seq<string>, value: string): (r: string)
    requires forall k :: k in keys ==> PlainKey(k)
    requires '$' !in value
    ensures keys == [] ==> r == content
    decreases |keys|
  {
    if keys == [] then content else UpdateAll(UpdateEnvVar(content, keys[0], value), keys[1..], value)
  }

  /**
   * `updateEnvFile` without the file system: nothing is written unless a URL is known; otherwise the
   * existing text (empty when there is no file) gets the API keys when the API URL is known and the
   * Ollama keys when the Ollama URL is known.
   */
  function UpdateEnvFile(existing: Option<string>, apiUrl: Option<string>, ollamaUrl: Option<string>): (r: Option<string>)
    requires apiUrl.Some? ==> '$' !in apiUrl.value
    requires ollamaUrl.Some? ==> '$' !in ollamaUrl.value
    ensures r.None? <==> !Known(apiUrl) && !Known(ollamaUrl)
    ensures !Known(apiUrl) && Known(ollamaUrl) ==> r == Some(UpdateAll(existing.GetOr(""), OllamaKeys, ollamaUrl.value))
    ensures Known(apiUrl) && !Known(ollamaUrl) ==> r == Some(UpdateAll(existing.GetOr(""), ApiKeys, apiUrl.value))
    ensures Known(apiUrl) && Known(ollamaUrl) ==>
      r == Some(UpdateAll(UpdateAll(existing.GetOr(""), ApiKeys, apiUrl.value), OllamaKeys, ollamaUrl.value))
  {
    if !Known(apiUrl) && !Known(ollamaUrl) then None
    else
      var content := existing.GetOr("");
      var withApi := if Known(apiUrl) then UpdateAll(content, ApiKeys, apiUrl.value) else content;
      Some(if Known(ollamaUrl) then UpdateAll(withApi, OllamaKeys, ollamaUrl.value) else withApi)
  }

  /**
   * The written text has a whole line `KEY=url` for both API keys when the API URL is known and
   * for both Ollama keys when the Ollama URL is known; the Ollama updates keep the API lines.
   */
  lemma EnvFileSetsKeys(existing: Option<string>, apiUrl: Option<string>, ollamaUrl: Option<string>)
    requires apiUrl.Some? ==> '$' !in apiUrl.value && NoLineTerminator(apiUrl.value)
    requires ollamaUrl.Some? ==> '$' !in ollamaUrl.value && NoLineTerminator(ollamaUrl.value)
    ensures var r := UpdateEnvFile(existing, apiUrl, ollamaUrl);
      && (Known(apiUrl) ==> r.Some? && forall k :: k in ApiKeys ==> HasLine(r.value, Line(k, apiUrl.value)))
      && (Known(ollamaUrl) ==> r.Some? && forall k :: k in OllamaKeys ==> HasLine(r.value, Line(k, ollamaUrl.value)))
  {
    var content := existing.GetOr("");
    KnownKeys();
    if Known(apiUrl) {
      UpdateAllSetsKeys(content, ApiKeys, apiUrl.value);
      if Known(ollamaUrl) {
        var withApi := UpdateAll(content, ApiKeys, apiUrl.value);
        UpdateAllSetsKeys(withApi, OllamaKeys, ollamaUrl.value);
        forall k | k in ApiKeys ensures HasLine(UpdateAll(withApi, OllamaKeys, ollamaUrl.value), Line(k, apiUrl.value)) {
          UpdateAllKeepsLine(withApi, OllamaKeys, ollamaUrl.value, k, apiUrl.value);
        }
      }
    } else if Known(ollamaUrl) {
      UpdateAllSetsKeys(content, OllamaKeys, ollamaUrl.value);
    }
  }

  /** The four keys are distinct, and no API key is an Ollama key. */
  lemma KnownKeys()
    ensures DistinctKeys(ApiKeys) && DistinctKeys(OllamaKeys)
    ensures forall k :: k in ApiKeys ==> k !in OllamaKeys
  {
  }
}
