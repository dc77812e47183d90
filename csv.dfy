/**
 * The CSV export format: a header row naming every data key once, in the order
 * keys are first seen, then one row per submission with one quoted cell per
 * header. Cells follow rules 5 to 7 of section 2 of RFC 4180 (every cell is
 * enclosed in double quotes and a double quote inside is doubled); unlike the
 * RFC, lines end in a bare line feed and header names are not quoted.
 */
module Csv {
  import opened Wrappers
  import opened Js
  import opened Strings
  import opened SubmissionModel

  // ---------------------------------------------------------------- header row

  /** Every data key of every submission, submission by submission, each in insertion order. */
  function AllKeys(subs: seq<FormSubmission>): seq<string>
  {
    if subs == [] then [] else AllKeys(subs[..|subs| - 1]) + Keys(subs[|subs| - 1].data)
  }

  /** Adding the keys one by one to a JavaScript `Set`: a key already present keeps its place. */
  function Dedup(s: seq<string>): seq<string>
  {
    if s == [] then []
    else
      var seen := Dedup(s[..|s| - 1]);
      if s[|s| - 1] in seen then seen else seen + [s[|s| - 1]]
  }

  /** `Array.from(headers)` after the `forEach` that fills the set. */
  function HeaderUnion(subs: seq<FormSubmission>): seq<string>
  {
    Dedup(AllKeys(subs))
  }

  /** The position where `x` first occurs in `s`. */
  function FirstIndex(s: seq<string>, x: string): (k: nat)
    requires x in s
    ensures k < |s| && s[k] == x && x !in s[..k]
  {
    if x in s[..|s| - 1] then FirstIndex(s[..|s| - 1], x) else |s| - 1
  }

  predicate Distinct(s: seq<string>)
  {
    forall i, j :: 0 <= i < j < |s| ==> s[i] != s[j]
  }

  /** The set semantics: exactly the keys seen, each once, ordered by where they were first seen. */
  lemma {:induction false} DedupFirstSeen(s: seq<string>)
    ensures forall x :: x in Dedup(s) <==> x in s
    ensures Distinct(Dedup(s))
    ensures forall i, j :: 0 <= i < j < |Dedup(s)| ==> FirstIndex(s, Dedup(s)[i]) < FirstIndex(s, Dedup(s)[j])
  {
    if s != [] {
      var p := s[..|s| - 1];
      var x := s[|s| - 1];
      DedupFirstSeen(p);
      assert s == p + [x];
      var d := Dedup(s);
      forall y | y in p ensures FirstIndex(s, y) == FirstIndex(p, y) {
        FirstIndexPrefix(p, x, y);
      }
      if x !in Dedup(p) {
        assert d == Dedup(p) + [x];
        forall i, j | 0 <= i < j < |d|
          ensures FirstIndex(s, d[i]) < FirstIndex(s, d[j])
        {
          if j == |d| - 1 {
            assert FirstIndex(s, x) == |s| - 1;
            assert d[i] in p;
          } else {
            assert d[i] == Dedup(p)[i] && d[j] == Dedup(p)[j];
          }
        }
      }
    }
  }

  lemma {:induction false} FirstIndexPrefix(p: seq<string>, x: string, y: string)
    requires y in p
    ensures FirstIndex(p + [x], y) == FirstIndex(p, y)
  {
    assert (p + [x])[..|p|] == p;
  }

  /** The header row lists each data key exactly once, in the order the keys are first seen. */
  lemma HeaderUnionSpec(subs: seq<FormSubmission>)
    ensures forall k :: k in HeaderUnion(subs) <==> k in AllKeys(subs)
    ensures Distinct(HeaderUnion(subs))
    ensures forall i, j :: 0 <= i < j < |HeaderUnion(subs)| ==>
      FirstIndex(AllKeys(subs), HeaderUnion(subs)[i]) < FirstIndex(AllKeys(subs), HeaderUnion(subs)[j])
  {
    DedupFirstSeen(AllKeys(subs));
  }

  /** Every key of every submission is a header. */
  lemma {:induction false} KeysAreHeaders(subs: seq<FormSubmission>, n: nat, key: string)
    requires n < |subs| && key in Keys(subs[n].data)
    ensures key in HeaderUnion(subs)
  {
    AllKeysContains(subs, n, key);
    DedupFirstSeen(AllKeys(subs));
  }

  lemma {:induction false} AllKeysContains(subs: seq<FormSubmission>, n: nat, key: string)
    requires n < |subs| && key in Keys(subs[n].data)
    ensures key in AllKeys(subs)
  {
    var last := |subs| - 1;
    if n < last {
      AllKeysContains(subs[..last], n, key);
    }
  }

  /** Adding one more key to the set. */
  lemma DedupSnoc(p: seq<string>, x: string)
    ensures Dedup(p + [x]) == if x in Dedup(p) then Dedup(p) else Dedup(p) + [x]
  {
    assert (p + [x])[..|p|] == p;
  }

  /** Visiting one more submission. */
  lemma AllKeysSnoc(subs: seq<FormSubmission>, i: nat)
    requires i < |subs|
    ensures AllKeys(subs[..i + 1]) == AllKeys(subs[..i]) + Keys(subs[i].data)
  {
    assert subs[..i + 1][..i] == subs[..i];
  }

  /**
   * The two nested `forEach` loops that fill the header set: for each
   * submission, for each of its keys, add the key unless it is there already.
   */
  method CollectHeaders(subs: seq<FormSubmission>) returns (headers: seq<string>)
    ensures headers == HeaderUnion(subs)
  {
    headers := [];
    var i := 0;
    while i < |subs|
      invariant 0 <= i <= |subs|
      invariant headers == Dedup(AllKeys(subs[..i]))
    {
      var keys := Keys(subs[i].data);
      ghost var before := AllKeys(subs[..i]);
      var j := 0;
      assert before + keys[..0] == before;
      while j < |keys|
        invariant 0 <= j <= |keys|
        invariant headers == Dedup(before + keys[..j])
      {
        assert before + keys[..j + 1] == (before + keys[..j]) + [keys[j]];
        DedupSnoc(before + keys[..j], keys[j]);
        if keys[j] !in headers {
          headers := headers + [keys[j]];
        }
        j := j + 1;
      }
      AllKeysSnoc(subs, i);
      assert keys[..j] == keys;
      i := i + 1;
    }
    assert subs[..i] == subs;
  }

  /** `headers.join(',')`, without quoting. */
  function HeaderLine(headers: seq<string>): string
  {
    Join(headers, ',')
  }

  /** Header names are not quoted: the header row reads back as the headers only when no name contains a comma. */
  lemma HeaderLineSplits(headers: seq<string>)
    requires |headers| >= 1
    requires forall i :: 0 <= i < |headers| ==> ',' !in headers[i]
    ensures Split(HeaderLine(headers), ',') == headers
  {
    SplitJoin(headers, ',');
  }

  /** A header name containing a comma shows that the unquoted header row can gain columns. */
  lemma HeaderWithCommaAddsColumn()
    ensures |HeaderUnion([FormSubmission("s", "c", [("a,b", Str("x"))], None, None, 0)])| == 1
    ensures |Split(HeaderLine(["a,b"]), ',')| == 2
  {
    var sub := FormSubmission("s", "c", [("a,b", Str("x"))], None, None, 0);
    assert AllKeys([sub]) == [] + Keys(sub.data) by {
      assert [sub][..0] == [];
    }
    assert Keys(sub.data) == ["a,b"];
    assert Dedup(["a,b"]) == ["a,b"] by {
      assert ["a,b"][..0] == [];
    }
    assert "a,b" == ['a'] + [','] + ['b'];
    SplitAtSeparator("a", "b", ',');
    SplitWithoutSeparator("b", ',');
  }

  // ---------------------------------------------------------------- cells

  /** `value.replace(/"/g, '""')`. */
  function Escape(s: string): (r: string)
  {
    if s == [] then []
    else (if s[0] == '"' then "\"\"" else [s[0]]) + Escape(s[1..])
  }

  /** `sub.data.get(header) || ''` then `String(...)`: missing and falsy values become the empty string. */
  function Display(v: Option<Value>): (r: string)
    ensures !Truthy(v) ==> r == ""
    ensures Truthy(v) ==> r == ToString(v.value)
  {
    if Truthy(v) then ToString(v.value) else ""
  }

  /** One cell: the escaped text between two double quotes. */
  function Quote(s: string): string
  {
    "\"" + Escape(s) + "\""
  }

  function QuoteAll(vals: seq<string>): (r: seq<string>)
    ensures |r| == |vals|
  {
    if vals == [] then [] else [Quote(vals[0])] + QuoteAll(vals[1..])
  }

  /** The text of each cell of a row before quoting: the submission's value under each header. */
  function CellTexts(headers: seq<string>, data: Object): (r: seq<string>)
    ensures |r| == |headers|
    ensures forall i :: 0 <= i < |headers| ==> r[i] == Display(Get(data, headers[i]))
  {
    if headers == [] then [] else [Display(Get(data, headers[0]))] + CellTexts(headers[1..], data)
  }

  /** One data row: a quoted cell per header, joined by commas. */
  function Row(headers: seq<string>, data: Object): string
  {
    Join(QuoteAll(CellTexts(headers, data)), ',')
  }

  /** The whole export: the header row, then one row per submission, joined by line feeds. */
  function Document(headers: seq<string>, subs: seq<FormSubmission>): string
  {
    Join([HeaderLine(headers)] + Rows(headers, subs), '\n')
  }

  function Rows(headers: seq<string>, subs: seq<FormSubmission>): (r: seq<string>)
    ensures |r| == |subs|
    ensures forall i :: 0 <= i < |subs| ==> r[i] == Row(headers, subs[i].data)
  {
    if subs == [] then [] else [Row(headers, subs[0].data)] + Rows(headers, subs[1..])
  }

  // ---------------------------------------------------------------- reading a row back

  /**
   * A reader for one quoted field (rule 7 of section 2 of RFC 4180): `s` starts
   * just after the opening quote; the result is the field's text and what follows
   * the closing quote.
   */
  function ParseQuoted(s: string): (r: Option<(string, string)>)
    ensures r.Some? ==> |r.value.1| < |s|
  {
    if s == [] then None
    else if s[0] == '"' then
      if |s| >= 2 && s[1] == '"' then
        match ParseQuoted(s[2..])
        case None => None
        case Some((text, rest)) => Some(("\"" + text, rest))
      else Some(("", s[1..]))
    else
      match ParseQuoted(s[1..])
      case None => None
      case Some((text, rest)) => Some(([s[0]] + text, rest))
  }

  /** A reader for a record of one or more quoted fields separated by commas. */
  function ParseFields(s: string): Option<seq<string>>
    decreases |s|
  {
    if s == [] || s[0] != '"' then None
    else
      match ParseQuoted(s[1..])
      case None => None
      case Some((text, rest)) =>
        if rest == [] then Some([text])
        else if rest[0] == ',' then
          match ParseFields(rest[1..])
          case None => None
          case Some(more) => Some([text] + more)
        else None
  }

  /** A record with no fields is the empty line. */
  function ParseRow(s: string): Option<seq<string>>
  {
    if s == [] then Some([]) else ParseFields(s)
  }

  /** The escaped text followed by the closing quote reads back as the original text. */
  lemma {:induction false} ParseEscaped(x: string, rest: string)
    requires rest == [] || rest[0] != '"'
    ensures ParseQuoted(Escape(x) + "\"" + rest) == Some((x, rest))
  {
    var s := Escape(x) + "\"" + rest;
    if x == [] {
      assert s == "\"" + rest;
      assert s[1..] == rest;
    } else if x[0] == '"' {
      assert s == "\"\"" + (Escape(x[1..]) + "\"" + rest);
      assert s[2..] == Escape(x[1..]) + "\"" + rest;
      ParseEscaped(x[1..], rest);
      assert "\"" + x[1..] == x;
    } else {
      assert s == [x[0]] + (Escape(x[1..]) + "\"" + rest);
      assert s[1..] == Escape(x[1..]) + "\"" + rest;
      ParseEscaped(x[1..], rest);
      assert [x[0]] + x[1..] == x;
    }
  }

  lemma {:induction false} ParseQuotedFields(vals: seq<string>)
    requires |vals| >= 1
    ensures ParseFields(Join(QuoteAll(vals), ',')) == Some(vals)
  {
    var s := Join(QuoteAll(vals), ',');
    if |vals| == 1 {
      assert QuoteAll(vals) == [Quote(vals[0])];
      assert s == "\"" + (Escape(vals[0]) + "\"" + "");
      assert s[1..] == Escape(vals[0]) + "\"" + "";
      ParseEscaped(vals[0], "");
      assert [vals[0]] == vals;
    } else {
      var tail := Join(QuoteAll(vals[1..]), ',');
      assert QuoteAll(vals)[1..] == QuoteAll(vals[1..]);
      assert s == Quote(vals[0]) + [','] + tail;
      assert s == "\"" + (Escape(vals[0]) + "\"" + ([','] + tail));
      assert s[1..] == Escape(vals[0]) + "\"" + ([','] + tail);
      ParseEscaped(vals[0], [','] + tail);
      assert ([','] + tail)[1..] == tail;
      ParseQuotedFields(vals[1..]);
      assert [vals[0]] + vals[1..] == vals;
    }
  }

  /**
   * Every data row reads back, under the quoting rules of RFC 4180, as exactly
   * one field per header holding the submission's displayed value.
   */
  lemma RowRoundTrip(headers: seq<string>, data: Object)
    ensures ParseRow(Row(headers, data)) == Some(CellTexts(headers, data))
    ensures |ParseRow(Row(headers, data)).value| == |headers|
  {
    if |headers| >= 1 {
      ParseQuotedFields(CellTexts(headers, data));
      assert Row(headers, data) != [] by {
        assert Quote(CellTexts(headers, data)[0])[0] == '"';
        RowStartsWithQuote(CellTexts(headers, data));
      }
    }
  }

  lemma {:induction false} RowStartsWithQuote(vals: seq<string>)
    requires |vals| >= 1
    ensures |Join(QuoteAll(vals), ',')| >= 1 && Join(QuoteAll(vals), ',')[0] == '"'
  {
    if |vals| > 1 {
      assert QuoteAll(vals)[1..] == QuoteAll(vals[1..]);
    }
  }

  /** Escaping adds only double quotes, so no line feed appears that was not in the text. */
  lemma {:induction false} EscapeKeepsOtherChars(s: string, c: char)
    requires c != '"' && c !in s
    ensures c !in Escape(s)
  {
    if s != [] {
      EscapeKeepsOtherChars(s[1..], c);
    }
  }

  lemma {:induction false} QuoteAllExcludes(vals: seq<string>, c: char)
    requires c != '"'
    requires forall i :: 0 <= i < |vals| ==> c !in vals[i]
    ensures forall i :: 0 <= i < |vals| ==> c !in QuoteAll(vals)[i]
  {
    if vals != [] {
      EscapeKeepsOtherChars(vals[0], c);
      QuoteAllExcludes(vals[1..], c);
      forall i | 0 <= i < |vals| ensures c !in QuoteAll(vals)[i] {
        if i > 0 {
          assert QuoteAll(vals)[i] == QuoteAll(vals[1..])[i - 1];
        }
      }
    }
  }

  predicate NoLineFeeds(headers: seq<string>, subs: seq<FormSubmission>)
  {
    && (forall i :: 0 <= i < |headers| ==> '\n' !in headers[i])
    && (forall n, i :: 0 <= n < |subs| && 0 <= i < |headers| ==> '\n' !in Display(Get(subs[n].data, headers[i])))
  }

  /**
   * When neither a header nor a displayed value contains a line feed, the export
   * splits into one line per submission after the header line, and each of those
   * lines reads back as one field per header.
   */
  lemma DocumentLines(headers: seq<string>, subs: seq<FormSubmission>)
    requires NoLineFeeds(headers, subs)
    ensures |Split(Document(headers, subs), '\n')| == |subs| + 1
    ensures Split(Document(headers, subs), '\n')[0] == HeaderLine(headers)
    ensures forall n :: 0 <= n < |subs| ==>
      ParseRow(Split(Document(headers, subs), '\n')[n + 1]) == Some(CellTexts(headers, subs[n].data))
  {
    var lines := [HeaderLine(headers)] + Rows(headers, subs);
    JoinExcludes(headers, ',', '\n');
    forall n | 0 <= n < |subs| ensures '\n' !in Row(headers, subs[n].data) {
      var texts := CellTexts(headers, subs[n].data);
      QuoteAllExcludes(texts, '\n');
      JoinExcludes(QuoteAll(texts), ',', '\n');
    }
    forall k | 0 <= k < |lines| ensures '\n' !in lines[k] {
      if k > 0 {
        assert lines[k] == Row(headers, subs[k - 1].data);
      }
    }
    SplitJoin(lines, '\n');
    forall n | 0 <= n < |subs|
      ensures ParseRow(Split(Document(headers, subs), '\n')[n + 1]) == Some(CellTexts(headers, subs[n].data))
    {
      assert lines[n + 1] == Row(headers, subs[n].data);
      RowRoundTrip(headers, subs[n].data);
    }
  }
}
