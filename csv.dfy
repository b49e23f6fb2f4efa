/**
 * CSV export as the Live SEO Audit and the Content Analyzer write it: quoting in the
 * style of section 2 of RFC 4180 (a field holding a comma, a line feed or a double
 * quote is enclosed in double quotes, each inner double quote doubled), records
 * joined by ',' and lines by '\n'; plus the clean-up that turns an HTML detail
 * into plain text. A reader for that format states what the quoting guarantees:
 * reading an exported table gives back its cells.
 */
module Csv {
  import opened Common
  import opened Text

  // ---------------------------------------------------------------------------------
  // Field escaping

  /** `field.replace(/"/g, '""')`. */
  function DoubleQuotes(s: string): string {
    if s == [] then []
    else (if s[0] == '"' then "\"\"" else [s[0]]) + DoubleQuotes(s[1..])
  }

  /** Doubling the quotes adds no character and removes none. */
  lemma {:induction false} DoubleQuotesMembers(s: string, c: char)
    ensures c in DoubleQuotes(s) <==> c in s
  {
    if s != [] {
      DoubleQuotesMembers(s[1..], c);
      assert c in s <==> c == s[0] || c in s[1..];
    }
  }

  predicate NeedsQuoting(s: string) {
    ',' in s || '\n' in s || '"' in s
  }

  /** `escapeCsvField`: quotes a field exactly when it holds a comma, a line feed or a double quote. */
  function EscapeField(field: string): (r: string)
    ensures !NeedsQuoting(field) ==> r == field
    ensures NeedsQuoting(field) ==> |r| >= 2 && r[0] == '"' && r[|r| - 1] == '"' && r != field
  {
    var cleaned := DoubleQuotes(field);
    DoubleQuotesMembers(field, ',');
    DoubleQuotesMembers(field, '\n');
    DoubleQuotesMembers(field, '"');
    if ',' in cleaned || '\n' in cleaned || '"' in cleaned then
      DoubleQuotesLength(field);
      "\"" + cleaned + "\""
    else
      assert cleaned == field by { DoubleQuotesIdentity(field); }
      cleaned
  }

  lemma {:induction false} DoubleQuotesLength(s: string)
    ensures |DoubleQuotes(s)| >= |s|
  {
    if s != [] {
      DoubleQuotesLength(s[1..]);
    }
  }

  lemma {:induction false} DoubleQuotesIdentity(s: string)
    requires '"' !in s
    ensures DoubleQuotes(s) == s
  {
    if s != [] {
      DoubleQuotesIdentity(s[1..]);
    }
  }

  /** Undoes the doubling: every `""` becomes `"`. */
  function HalveQuotes(s: string): string {
    if |s| >= 2 && s[0] == '"' && s[1] == '"' then "\"" + HalveQuotes(s[2..])
    else if s == [] then []
    else [s[0]] + HalveQuotes(s[1..])
  }

  /** Removing the outer quotes of a quoted field and halving its `""`. */
  function UnescapeField(e: string): string {
    if |e| >= 2 && e[0] == '"' && e[|e| - 1] == '"' then HalveQuotes(e[1..|e| - 1]) else e
  }

  lemma {:induction false} HalveDoubleQuotes(s: string)
    ensures HalveQuotes(DoubleQuotes(s)) == s
  {
    if s != [] {
      HalveDoubleQuotes(s[1..]);
      if s[0] == '"' {
        assert DoubleQuotes(s) == "\"\"" + DoubleQuotes(s[1..]);
      } else {
        assert DoubleQuotes(s) == [s[0]] + DoubleQuotes(s[1..]);
      }
    }
  }

  /** Escaping is undone by removing the outer quotes and halving the inner ones. */
  lemma {:induction false} EscapeRoundTrip(field: string)
    ensures UnescapeField(EscapeField(field)) == field
  {
    if NeedsQuoting(field) {
      var e := EscapeField(field);
      assert e[1..|e| - 1] == DoubleQuotes(field);
      HalveDoubleQuotes(field);
    }
  }

  // ---------------------------------------------------------------------------------
  // HTML to plain text: `html.replace(/<[^>]*>/g, ' ').replace(/\s\s+/g, ' ').trim()`

  /** Index of the first `c` in `s`. */
  function IndexOf(s: string, c: char): (i: nat)
    requires c in s
    ensures i < |s| && s[i] == c && c !in s[..i]
  {
    if s[0] == c then 0 else 1 + IndexOf(s[1..], c)
  }

  /** `replace(/<[^>]*>/g, ' ')`: each `<` with a later `>` starts a tag that runs to the first such `>`. */
  function StripTags(s: string): (r: string)
    decreases |s|
  {
    if s == [] then []
    else if s[0] == '<' && '>' in s[1..] then " " + StripTags(s[1..][IndexOf(s[1..], '>') + 1..])
    else [s[0]] + StripTags(s[1..])
  }

  /** `replace(/\s\s+/g, ' ')`: each run of two or more white-space characters becomes one space. */
  function CollapseWhitespace(s: string): (r: string)
    ensures s != [] ==> r != [] && (!IsWhitespace(s[0]) ==> r[0] == s[0])
    decreases |s|
  {
    if |s| < 2 then s
    else if IsWhitespace(s[0]) && IsWhitespace(s[1]) then " " + CollapseWhitespace(TrimStart(s))
    else [s[0]] + CollapseWhitespace(s[1..])
  }

  /** `cleanHtmlForCsv`. */
  function CleanHtml(html: string): string {
    Trim(CollapseWhitespace(StripTags(html)))
  }

  /** No `<` is followed, anywhere later, by a `>`: no tag is left to strip. */
  predicate TagFree(s: string) {
    forall i, j :: 0 <= i < j < |s| ==> !(s[i] == '<' && s[j] == '>')
  }

  predicate NoAdjacentWhitespace(s: string) {
    forall i :: 0 <= i < |s| - 1 ==> !(IsWhitespace(s[i]) && IsWhitespace(s[i + 1]))
  }

  lemma {:induction false} StripTagsChars(s: string, c: char)
    requires c != ' '
    ensures c in StripTags(s) ==> c in s
    decreases |s|
  {
    if s != [] {
      if s[0] == '<' && '>' in s[1..] {
        var rest := s[1..][IndexOf(s[1..], '>') + 1..];
        StripTagsChars(rest, c);
        assert forall x :: x in rest ==> x in s;
      } else if c != s[0] {
        StripTagsChars(s[1..], c);
      }
    }
  }

  lemma {:induction false} StripTagsTagFree(s: string)
    ensures TagFree(StripTags(s))
    decreases |s|
  {
    if s != [] {
      if s[0] == '<' && '>' in s[1..] {
        var rest := s[1..][IndexOf(s[1..], '>') + 1..];
        StripTagsTagFree(rest);
      } else {
        var t := StripTags(s[1..]);
        StripTagsTagFree(s[1..]);
        if s[0] == '<' {
          StripTagsChars(s[1..], '>');
          assert '>' !in t;
        }
        assert StripTags(s) == [s[0]] + t;
      }
    }
  }

  /** What follows the first character of tag-free text is tag-free, and holds no '>' if that character is '<'. */
  lemma {:induction false} TagFreeTail(s: string)
    requires s != [] && TagFree(s)
    ensures TagFree(s[1..])
    ensures s[0] == '<' ==> '>' !in s[1..]
  {
    var t := s[1..];
    forall i, j | 0 <= i < j < |t| ensures !(t[i] == '<' && t[j] == '>') {
      assert t[i] == s[i + 1] && t[j] == s[j + 1];
    }
    if s[0] == '<' {
      forall j | 0 <= j < |t| ensures t[j] != '>' {
        assert t[j] == s[j + 1];
      }
    }
  }

  /** Text without tags passes through tag stripping unchanged. */
  lemma {:induction false} StripTagsIdentity(s: string)
    requires TagFree(s)
    ensures StripTags(s) == s
    decreases |s|
  {
    if s != [] {
      TagFreeTail(s);
      StripTagsIdentity(s[1..]);
      assert StripTags(s) == [s[0]] + StripTags(s[1..]);
    }
  }

  lemma {:induction false} CollapseChars(s: string, c: char)
    requires c != ' '
    ensures c in CollapseWhitespace(s) ==> c in s
    decreases |s|
  {
    if |s| >= 2 {
      if IsWhitespace(s[0]) && IsWhitespace(s[1]) {
        var t := TrimStart(s);
        CollapseChars(t, c);
        TrimStartSlice(s);
        assert forall x :: x in t ==> x in s;
      } else if c != s[0] {
        CollapseChars(s[1..], c);
      }
    }
  }

  lemma {:induction false} CollapseNoAdjacent(s: string)
    ensures NoAdjacentWhitespace(CollapseWhitespace(s))
    decreases |s|
  {
    if |s| >= 2 {
      var r := CollapseWhitespace(s);
      if IsWhitespace(s[0]) && IsWhitespace(s[1]) {
        var t := TrimStart(s);
        CollapseNoAdjacent(t);
        var u := CollapseWhitespace(t);
        assert r == " " + u;
        forall i | 0 <= i < |r| - 1 ensures !(IsWhitespace(r[i]) && IsWhitespace(r[i + 1])) {
          if i > 0 { assert r[i] == u[i - 1] && r[i + 1] == u[i]; }
        }
      } else {
        CollapseNoAdjacent(s[1..]);
        var u := CollapseWhitespace(s[1..]);
        assert r == [s[0]] + u;
        forall i | 0 <= i < |r| - 1 ensures !(IsWhitespace(r[i]) && IsWhitespace(r[i + 1])) {
          if i > 0 { assert r[i] == u[i - 1] && r[i + 1] == u[i]; }
        }
      }
    }
  }

  lemma {:induction false} CollapseTagFree(s: string)
    requires TagFree(s)
    ensures TagFree(CollapseWhitespace(s))
    decreases |s|
  {
    if |s| >= 2 {
      var r := CollapseWhitespace(s);
      if IsWhitespace(s[0]) && IsWhitespace(s[1]) {
        var t := TrimStart(s);
        assert TagFree(t) by {
          TrimStartSlice(s);
          var k := |s| - |t|;
          forall i, j | 0 <= i < j < |t| ensures !(t[i] == '<' && t[j] == '>') {
            assert t[i] == s[i + k] && t[j] == s[j + k];
          }
        }
        CollapseTagFree(t);
        var u := CollapseWhitespace(t);
        assert r == " " + u;
        forall i, j | 0 <= i < j < |r| ensures !(r[i] == '<' && r[j] == '>') {
          if i > 0 { assert r[i] == u[i - 1] && r[j] == u[j - 1]; }
        }
      } else {
        var t := s[1..];
        assert TagFree(t) by {
          forall i, j | 0 <= i < j < |t| ensures !(t[i] == '<' && t[j] == '>') {
            assert t[i] == s[i + 1] && t[j] == s[j + 1];
          }
        }
        CollapseTagFree(t);
        var u := CollapseWhitespace(t);
        assert r == [s[0]] + u;
        forall i, j | 0 <= i < j < |r| ensures !(r[i] == '<' && r[j] == '>') {
          if i > 0 {
            assert r[i] == u[i - 1] && r[j] == u[j - 1];
          } else if s[0] == '<' {
            forall m | 0 <= m < |t| ensures t[m] != '>' {
              assert t[m] == s[m + 1];
            }
            CollapseChars(t, '>');
            assert r[j] == u[j - 1];
          }
        }
      }
    }
  }

  /** Text without adjacent white space passes through the collapse unchanged. */
  lemma {:induction false} CollapseIdentity(s: string)
    requires NoAdjacentWhitespace(s)
    ensures CollapseWhitespace(s) == s
    decreases |s|
  {
    if |s| >= 2 {
      assert !(IsWhitespace(s[0]) && IsWhitespace(s[1]));
      assert NoAdjacentWhitespace(s[1..]) by {
        forall i | 0 <= i < |s[1..]| - 1 ensures !(IsWhitespace(s[1..][i]) && IsWhitespace(s[1..][i + 1])) {
          assert s[1..][i] == s[i + 1] && s[1..][i + 1] == s[i + 2];
        }
      }
      CollapseIdentity(s[1..]);
    }
  }

  /**
   * The plain text written to the CSV has no tag left, no white space at either end and never
   * two white-space characters in a row.
   */
  lemma {:induction false} CleanHtmlShape(html: string)
    ensures var r := CleanHtml(html);
      && TagFree(r)
      && NoAdjacentWhitespace(r)
      && (r != [] ==> !IsWhitespace(r[0]) && !IsWhitespace(r[|r| - 1]))
  {
    var c := CollapseWhitespace(StripTags(html));
    StripTagsTagFree(html);
    CollapseTagFree(StripTags(html));
    CollapseNoAdjacent(StripTags(html));
    var i, j := TrimIsSlice(c);
    var r := CleanHtml(html);
    assert r == c[i..j];
    forall a, b | 0 <= a < b < |r| ensures !(r[a] == '<' && r[b] == '>') {
      assert r[a] == c[a + i] && r[b] == c[b + i];
    }
    forall a | 0 <= a < |r| - 1 ensures !(IsWhitespace(r[a]) && IsWhitespace(r[a + 1])) {
      assert r[a] == c[a + i] && r[a + 1] == c[a + 1 + i];
    }
  }

  /** Cleaning already-clean text changes nothing, so cleaning twice is cleaning once. */
  lemma {:induction false} CleanHtmlIdempotent(html: string)
    ensures CleanHtml(CleanHtml(html)) == CleanHtml(html)
  {
    var r := CleanHtml(html);
    CleanHtmlShape(html);
    StripTagsIdentity(r);
    CollapseIdentity(r);
    TrimIdentity(r);
  }

  // ---------------------------------------------------------------------------------
  // Records and documents

  function EscapeAll(fields: seq<string>): (r: seq<string>)
    ensures |r| == |fields|
  {
    if fields == [] then [] else [EscapeField(fields[0])] + EscapeAll(fields[1..])
  }

  /** Fields that need no quoting are written as they are. */
  lemma {:induction false} EscapeAllPlain(fields: seq<string>)
    requires forall f :: f in fields ==> !NeedsQuoting(f)
    ensures EscapeAll(fields) == fields
  {
    if fields != [] {
      assert fields[0] in fields;
      EscapeAllPlain(fields[1..]);
      assert fields == [fields[0]] + fields[1..];
    }
  }

  /** `row.map(escapeCsvField).join(',')`. */
  function Record(fields: seq<string>): string {
    Join(",", EscapeAll(fields))
  }

  /** A record line put in front of lines that are records of rows is the record of that row put in front of them. */
  lemma {:induction false} RecordsCons(line: string, row: seq<string>, lines: seq<string>, rows: seq<seq<string>>)
    requires line == Record(row) && |lines| == |rows|
    requires forall k :: 0 <= k < |rows| ==> lines[k] == Record(rows[k])
    ensures var ls, rs := [line] + lines, [row] + rows;
      |ls| == |rs| && forall i :: 0 <= i < |rs| ==> ls[i] == Record(rs[i])
  {
    var ls, rs := [line] + lines, [row] + rows;
    forall i | 0 < i < |rs| ensures ls[i] == Record(rs[i]) {
      assert ls[i] == lines[i - 1] && rs[i] == rows[i - 1];
    }
  }

  function RecordsOf(rows: seq<seq<string>>): (r: seq<string>)
    ensures |r| == |rows|
    ensures forall k :: 0 <= k < |rows| ==> r[k] == Record(rows[k])
  {
    if rows == [] then [] else [Record(rows[0])] + RecordsOf(rows[1..])
  }

  /** `rows.map(row => row.map(escapeCsvField).join(',')).join('\n')`. */
  function Document(rows: seq<seq<string>>): string {
    Join("\n", RecordsOf(rows))
  }

  // ---------------------------------------------------------------------------------
  // A reader for the format: the reference the export is checked against.

  /** Reads the inside of a quoted field up to its closing quote; `""` stands for `"`. */
  function ParseQuoted(s: string): (r: Option<(string, string)>)
    ensures r.Some? ==> |r.value.1| < |s|
    decreases |s|
  {
    if s == [] then None
    else if s[0] == '"' then
      if |s| >= 2 && s[1] == '"' then
        match ParseQuoted(s[2..])
        case None => None
        case Some((body, rest)) => Some(("\"" + body, rest))
      else Some(("", s[1..]))
    else
      match ParseQuoted(s[1..])
      case None => None
      case Some((body, rest)) => Some(([s[0]] + body, rest))
  }

  /** Reads an unquoted field up to the next ',' or '\n'. */
  function ParseUnquoted(s: string): (r: (string, string))
    ensures |r.1| <= |s|
  {
    if s == [] || s[0] == ',' || s[0] == '\n' then ("", s)
    else
      var (body, rest) := ParseUnquoted(s[1..]);
      ([s[0]] + body, rest)
  }

  function ParseField(s: string): (r: Option<(string, string)>)
    ensures r.Some? ==> |r.value.1| <= |s|
  {
    if s != [] && s[0] == '"' then ParseQuoted(s[1..]) else Some(ParseUnquoted(s))
  }

  /**
   * Reads the fields of one record; also returns what follows its terminating '\n',
   * or `None` when the record ended with the input.
   */
  function ParseRecord(s: string): (r: Option<(seq<string>, Option<string>)>)
    ensures r.Some? && r.value.1.Some? ==> |r.value.1.value| < |s|
    decreases |s|
  {
    match ParseField(s)
    case None => None
    case Some((f, rest)) =>
      if rest == [] then Some(([f], None))
      else if rest[0] == '\n' then Some(([f], Some(rest[1..])))
      else if rest[0] == ',' then
        match ParseRecord(rest[1..])
        case None => None
        case Some((fs, after)) => Some(([f] + fs, after))
      else None
  }

  function ParseDocument(s: string): (r: Option<seq<seq<string>>>)
    decreases |s|
  {
    match ParseRecord(s)
    case None => None
    case Some((fields, None)) => Some([fields])
    case Some((fields, Some(rest))) =>
      match ParseDocument(rest)
      case None => None
      case Some(rows) => Some([fields] + rows)
  }

  /** What may follow a field: nothing, or a separator. */
  predicate FieldEnd(t: string) {
    t == [] || t[0] == ',' || t[0] == '\n'
  }

  lemma {:induction false} ParseQuotedRoundTrip(f: string, t: string)
    requires t == [] || t[0] != '"'
    ensures ParseQuoted(DoubleQuotes(f) + "\"" + t) == Some((f, t))
  {
    var s := DoubleQuotes(f) + "\"" + t;
    if f == [] {
      assert s == "\"" + t;
    } else {
      ParseQuotedRoundTrip(f[1..], t);
      var tail := DoubleQuotes(f[1..]) + "\"" + t;
      if f[0] == '"' {
        assert s == "\"\"" + tail;
        assert s[2..] == tail;
      } else {
        assert s == [f[0]] + tail;
        assert s[1..] == tail;
      }
      assert [f[0]] + f[1..] == f;
    }
  }

  lemma {:induction false} ParseUnquotedRoundTrip(f: string, t: string)
    requires ',' !in f && '\n' !in f && FieldEnd(t)
    ensures ParseUnquoted(f + t) == (f, t)
  {
    if f == [] {
      assert f + t == t;
    } else {
      assert (f + t)[1..] == f[1..] + t;
      assert f[0] in f && f == [f[0]] + f[1..];
      ParseUnquotedRoundTrip(f[1..], t);
    }
  }

  /** Reading an escaped field gives back the field and leaves what follows it. */
  lemma {:induction false} ParseFieldRoundTrip(f: string, t: string)
    requires FieldEnd(t)
    ensures ParseField(EscapeField(f) + t) == Some((f, t))
  {
    if NeedsQuoting(f) {
      var e := EscapeField(f);
      assert e + t == "\"" + (DoubleQuotes(f) + "\"" + t);
      ParseQuotedRoundTrip(f, t);
    } else {
      ParseUnquotedRoundTrip(f, t);
      if f != [] { assert f[0] in f; }
    }
  }

  /** Reading a record gives back its fields, for records of at least one field. */
  lemma {:induction false} ParseRecordRoundTrip(fields: seq<string>, t: string)
    requires |fields| >= 1
    requires t == [] || t[0] == '\n'
    ensures ParseRecord(Record(fields) + t) == Some((fields, if t == [] then None else Some(t[1..])))
  {
    var es := EscapeAll(fields);
    if |fields| == 1 {
      assert es == [EscapeField(fields[0])];
      assert fields == [fields[0]];
      ParseFieldRoundTrip(fields[0], t);
    } else {
      ParseRecordRoundTrip(fields[1..], t);
      ParseRecordStep(fields, t);
    }
  }

  /** A record of several fields is its first field, a comma and the record of the others. */
  lemma {:induction false} RecordCons(fields: seq<string>)
    requires |fields| >= 2
    ensures Record(fields) == EscapeField(fields[0]) + "," + Record(fields[1..])
  {
    var es := EscapeAll(fields);
    assert es[0] == EscapeField(fields[0]) && es[1..] == EscapeAll(fields[1..]);
  }

  /** A record whose first field is read up to a comma goes on with the record after the comma. */
  lemma {:induction false} ParseRecordAfterComma(s: string, rest: string, f: string, fs: seq<string>, after: Option<string>)
    requires ParseField(s) == Some((f, "," + rest))
    requires ParseRecord(rest) == Some((fs, after))
    ensures ParseRecord(s) == Some(([f] + fs, after))
  {
    assert ("," + rest)[1..] == rest;
  }

  /** The first field of a record of several fields reads back up to the comma after it. */
  lemma {:induction false} ParseFirstField(fields: seq<string>, t: string)
    requires |fields| >= 2
    ensures ParseField(Record(fields) + t) == Some((fields[0], "," + (Record(fields[1..]) + t)))
  {
    var rest := Record(fields[1..]) + t;
    RecordConsAppend(fields, t);
    ParseFieldRoundTrip(fields[0], "," + rest);
  }

  lemma {:induction false} RecordConsAppend(fields: seq<string>, t: string)
    requires |fields| >= 2
    ensures Record(fields) + t == EscapeField(fields[0]) + ("," + (Record(fields[1..]) + t))
  {
    RecordCons(fields);
    AppendRegroup(EscapeField(fields[0]), ",", Record(fields[1..]), t);
  }

  lemma {:induction false} AppendRegroup(a: string, b: string, c: string, t: string)
    ensures a + b + c + t == a + (b + (c + t))
  {
  }

  /** A record of several fields reads back when the record of all but its first field does. */
  lemma {:induction false} ParseRecordStep(fields: seq<string>, t: string)
    requires |fields| >= 2
    requires ParseRecord(Record(fields[1..]) + t) == Some((fields[1..], if t == [] then None else Some(t[1..])))
    ensures ParseRecord(Record(fields) + t) == Some((fields, if t == [] then None else Some(t[1..])))
  {
    var s, rest, after := Record(fields) + t, Record(fields[1..]) + t, if t == [] then None else Some(t[1..]);
    assert ParseField(s) == Some((fields[0], "," + rest)) by {
      ParseFirstField(fields, t);
    }
    assert ParseRecord(s) == Some(([fields[0]] + fields[1..], after)) by {
      ParseRecordAfterComma(s, rest, fields[0], fields[1..], after);
    }
    assert [fields[0]] + fields[1..] == fields;
  }

  /** The same, for a table given as the records of its rows. */
  lemma {:induction false} DocumentOfRecordsRoundTrip(lines: seq<string>, rows: seq<seq<string>>)
    requires |rows| >= 1 && |lines| == |rows|
    requires forall i :: 0 <= i < |rows| ==> |rows[i]| >= 1 && lines[i] == Record(rows[i])
    ensures ParseDocument(Join("\n", lines)) == Some(rows)
  {
    assert lines == RecordsOf(rows);
    DocumentRoundTrip(rows);
  }

  /** Reading an exported table gives back its rows, for a non-empty table of non-empty rows. */
  lemma {:induction false} DocumentRoundTrip(rows: seq<seq<string>>)
    requires |rows| >= 1
    requires forall i :: 0 <= i < |rows| ==> |rows[i]| >= 1
    ensures ParseDocument(Document(rows)) == Some(rows)
  {
    var rs := RecordsOf(rows);
    if |rows| == 1 {
      ParseRecordRoundTrip(rows[0], "");
      assert rs == [Record(rows[0])];
      assert Document(rows) == Record(rows[0]) + "";
      assert rows == [rows[0]];
    } else {
      assert rs[1..] == RecordsOf(rows[1..]);
      var tail := Document(rows[1..]);
      assert Document(rows) == Record(rows[0]) + ("\n" + tail);
      ParseRecordRoundTrip(rows[0], "\n" + tail);
      assert ("\n" + tail)[1..] == tail;
      DocumentRoundTrip(rows[1..]);
      assert rows == [rows[0]] + rows[1..];
    }
  }
}
