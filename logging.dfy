/** The console log of the agent: plain log lines and titled panels, with
    every panel whose content mentions an SQL data keyword (in any letter
    case) replaced by a fixed notice before it is shown. */
module Logging {
  import opened Text

  /** A Rich style; only its border colour is used. */
  datatype Style = Style(color: string)

  const BlueBorderStyle: Style := Style("#0EA5E9")
  const GreenBorderStyle: Style := Style("#10B981")

  datatype Panel = Panel(content: string, title: string, borderStyle: Style)

  /** One call of `console.log`: a line of text or a panel. */
  datatype Record = Line(text: string) | Boxed(panel: Panel)

  /** What a redacted panel shows instead of its content,
      "SQL query executed (details hidden for security).", kept in three
      pieces so that proofs about it stay small. */
  const Hidden: string := "SQL query " + "executed (details " + "hidden for security)."

  const SqlKeywords: seq<string> := ["SELECT", "INSERT", "UPDATE", "DELETE"]

  // ---------------------------------------------------------------------
  // the redaction rule, stated character by character

  /** `w` upper-cases to `kw`. */
  predicate SameUpper(w: string, kw: string)
  {
    |w| == |kw| && forall j | 0 <= j < |w| :: UpperChar(w[j]) == kw[j]
  }

  /** `kw` occurs at position `i` of `s`, ignoring the case of ASCII letters. */
  predicate CaselessAt(s: string, i: int, kw: string)
  {
    0 <= i && i + |kw| <= |s| && SameUpper(s[i..i + |kw|], kw)
  }

  /** The content names one of the keywords somewhere, in any letter case
      and also inside a longer word ("selected", "Deleted"). */
  predicate MentionsSql(s: string)
  {
    exists k, i | 0 <= k < |SqlKeywords| && 0 <= i <= |s| :: CaselessAt(s, i, SqlKeywords[k])
  }

  lemma UpperWindow(s: string, i: int, kw: string)
    requires 0 <= i && i + |kw| <= |s|
    ensures OccursAt(Upper(s), i, kw) <==> CaselessAt(s, i, kw)
  {
    var u := Upper(s)[i..i + |kw|];
    var w := s[i..i + |kw|];
    assert forall j | 0 <= j < |kw| :: u[j] == UpperChar(w[j]);
  }

  /** `kw in s.upper()` is the caseless search for `kw`. */
  lemma ContainsUpper(s: string, kw: string)
    ensures Contains(Upper(s), kw) <==> exists i | 0 <= i <= |s| :: CaselessAt(s, i, kw)
  {
    if Contains(Upper(s), kw) {
      var i :| 0 <= i <= |Upper(s)| - |kw| && OccursAt(Upper(s), i, kw);
      UpperWindow(s, i, kw);
    }
    if exists i | 0 <= i <= |s| :: CaselessAt(s, i, kw) {
      var i :| 0 <= i <= |s| && CaselessAt(s, i, kw);
      UpperWindow(s, i, kw);
    }
  }

  lemma MentionsSqlIff(s: string)
    ensures MentionsSql(s) <==>
      Contains(Upper(s), "SELECT") || Contains(Upper(s), "INSERT") ||
      Contains(Upper(s), "UPDATE") || Contains(Upper(s), "DELETE")
  {
    assert SqlKeywords[0] == "SELECT" && SqlKeywords[1] == "INSERT";
    assert SqlKeywords[2] == "UPDATE" && SqlKeywords[3] == "DELETE";
    ContainsUpper(s, "SELECT");
    ContainsUpper(s, "INSERT");
    ContainsUpper(s, "UPDATE");
    ContainsUpper(s, "DELETE");
  }

  /** The content a panel shows: the fixed notice when the content mentions
      a keyword, the content itself otherwise. */
  function Redact(content: string): (r: string)
    ensures MentionsSql(content) ==> r == Hidden
    ensures !MentionsSql(content) ==> r == content
  {
    MentionsSqlIff(content);
    var upper := Upper(content);
    if Contains(upper, "SELECT") || Contains(upper, "INSERT") ||
       Contains(upper, "UPDATE") || Contains(upper, "DELETE")
    then Hidden
    else content
  }

  /** Any text holding a keyword in any letter case is hidden entirely. */
  lemma RedactHidesAnyCase(before: string, word: string, after: string, k: int)
    requires 0 <= k < |SqlKeywords| && SameUpper(word, SqlKeywords[k])
    ensures Redact(before + word + after) == Hidden
  {
    var s := before + word + after;
    assert s[|before|..|before| + |word|] == word;
    assert CaselessAt(s, |before|, SqlKeywords[k]);
  }

  // ---------------------------------------------------------------------
  // the notice mentions no keyword, so redaction is idempotent

  predicate IsUpperLetter(c: char)
  {
    'A' <= c <= 'Z'
  }

  predicate Letters(kw: string)
  {
    forall j | 0 <= j < |kw| :: IsUpperLetter(kw[j])
  }

  /** `kw` occurs nowhere in `s`, ignoring case. */
  predicate KeywordFree(s: string, kw: string)
  {
    forall i | 0 <= i <= |s| :: !CaselessAt(s, i, kw)
  }

  /** A character that is not a letter splits a text into two halves that
      no caseless occurrence of a letters-only keyword can straddle. */
  lemma FreeAround(x: string, c: char, y: string, kw: string)
    requires Letters(kw) && !IsUpperLetter(UpperChar(c))
    requires KeywordFree(x, kw) && KeywordFree(y, kw)
    ensures KeywordFree(x + [c] + y, kw)
  {
    var s := x + [c] + y;
    forall i | 0 <= i <= |s| ensures !CaselessAt(s, i, kw) {
      if i + |kw| <= |x| {
        assert s[..|x|] == x;
        assert s[i..i + |kw|] == x[i..i + |kw|];
        assert !CaselessAt(x, i, kw);
      } else if i > |x| {
        var i' := i - |x| - 1;
        if i + |kw| <= |s| {
          assert s[|x| + 1..] == y;
          assert s[i..i + |kw|] == y[i'..i' + |kw|];
          assert !CaselessAt(y, i', kw);
        }
      } else if i + |kw| <= |s| {
        var w := s[i..i + |kw|];
        assert w[|x| - i] == c;
        assert UpperChar(w[|x| - i]) != kw[|x| - i];
        assert !SameUpper(w, kw);
      }
    }
  }

  /** The window at `p` is not `kw`, ignoring case. */
  predicate Mismatch(s: string, p: int, kw: string)
  {
    0 <= p && p + |kw| <= |s| && !SameUpper(s[p..p + |kw|], kw)
  }

  /** A window whose first three letters are none of SEL, INS, UPD, DEL
      (in any case) is no keyword. */
  lemma PrefixMismatch(s: string, p: int, kw: string)
    requires kw in SqlKeywords
    requires 0 <= p && p + 6 <= |s|
    requires [UpperChar(s[p]), UpperChar(s[p + 1]), UpperChar(s[p + 2])] !in {"SEL", "INS", "UPD", "DEL"}
    ensures Mismatch(s, p, kw)
  {
    var w := s[p..p + 6];
    assert w[0] == s[p] && w[1] == s[p + 1] && w[2] == s[p + 2];
    assert kw == "SELECT" || kw == "INSERT" || kw == "UPDATE" || kw == "DELETE";
    assert [kw[0], kw[1], kw[2]] in {"SEL", "INS", "UPD", "DEL"};
    assert !(UpperChar(w[0]) == kw[0] && UpperChar(w[1]) == kw[1] && UpperChar(w[2]) == kw[2]);
  }

  lemma ShortFree(w: string, kw: string)
    requires |w| < |kw|
    ensures KeywordFree(w, kw)
  {
  }

  lemma WordFree(w: string, kw: string)
    requires kw in SqlKeywords
    requires w in ["executed", "details", "hidden", "security"]
    ensures KeywordFree(w, kw)
  {
    forall i | 0 <= i <= |w| - |kw| ensures !CaselessAt(w, i, kw) {
      PrefixMismatch(w, i, kw);
    }
  }

  lemma FreeTail(kw: string)
    requires kw in SqlKeywords
    ensures KeywordFree("hidden" + [' '] + ("for" + [' '] + ("security" + [')'] + ("" + ['.'] + ""))), kw)
  {
    assert Letters(kw);
    ShortFree("", kw);
    FreeAround("", '.', "", kw);
    WordFree("security", kw);
    FreeAround("security", ')', "" + ['.'] + "", kw);
    var t7 := "security" + [')'] + ("" + ['.'] + "");
    ShortFree("for", kw);
    FreeAround("for", ' ', t7, kw);
    var t6 := "for" + [' '] + t7;
    WordFree("hidden", kw);
    FreeAround("hidden", ' ', t6, kw);
  }

  lemma FreeHead(kw: string, tail: string)
    requires kw in SqlKeywords && KeywordFree(tail, kw)
    ensures KeywordFree("SQL" + [' '] + ("query" + [' '] + ("executed" + [' '] + ("" + ['('] + ("details" + [' '] + tail)))), kw)
  {
    assert Letters(kw);
    WordFree("details", kw);
    FreeAround("details", ' ', tail, kw);
    var t4 := "details" + [' '] + tail;
    ShortFree("", kw);
    FreeAround("", '(', t4, kw);
    var t3 := "" + ['('] + t4;
    WordFree("executed", kw);
    FreeAround("executed", ' ', t3, kw);
    var t2 := "executed" + [' '] + t3;
    ShortFree("query", kw);
    FreeAround("query", ' ', t2, kw);
    var t1 := "query" + [' '] + t2;
    ShortFree("SQL", kw);
    FreeAround("SQL", ' ', t1, kw);
  }

  lemma TailShape()
    ensures "hidden" + [' '] + ("for" + [' '] + ("security" + [')'] + ("" + ['.'] + ""))) == "hidden for security)."
  {
  }

  lemma HeadShape(tail: string)
    ensures "SQL" + [' '] + ("query" + [' '] + ("executed" + [' '] + ("" + ['('] + ("details" + [' '] + tail))))
         == "SQL query " + "executed (details " + tail
  {
    assert "executed" + [' '] + ("" + ['('] + ("details" + [' '] + tail)) == "executed (details " + tail;
    assert "query" + [' '] + ("executed (details " + tail) == "query " + "executed (details " + tail;
    assert "SQL" + [' '] + ("query " + "executed (details " + tail) == "SQL query " + "executed (details " + tail;
  }

  lemma HiddenFree(kw: string)
    requires kw in SqlKeywords
    ensures KeywordFree(Hidden, kw)
  {
    var tail := "hidden" + [' '] + ("for" + [' '] + ("security" + [')'] + ("" + ['.'] + "")));
    FreeTail(kw);
    TailShape();
    FreeHead(kw, tail);
    HeadShape(tail);
  }

  /** The notice itself mentions no keyword (its "SQL" and "query" are not
      among them), so it is shown as it is. */
  lemma HiddenIsShown()
    ensures !MentionsSql(Hidden)
    ensures Redact(Hidden) == Hidden
  {
    forall k | 0 <= k < |SqlKeywords| ensures KeywordFree(Hidden, SqlKeywords[k]) {
      HiddenFree(SqlKeywords[k]);
    }
  }

  /** Redacting twice shows what redacting once shows. */
  lemma RedactIdempotent(content: string)
    ensures Redact(Redact(content)) == Redact(content)
  {
    HiddenIsShown();
  }

  // ---------------------------------------------------------------------
  // the console

  /** The Rich console: the records it has shown, in order. */
  class Console {
    var records: seq<Record>

    constructor ()
      ensures records == []
    {
      records := [];
    }

    /** `console.log(x)`: show one more record. */
    method Log(r: Record)
      modifies this
      ensures records == old(records) + [r]
    {
      records := records + [r];
    }
  }

  /** `log(content)`: a plain line, shown as it is. */
  method Log(console: Console, content: string)
    modifies console
    ensures console.records == old(console.records) + [Line(content)]
  {
    console.Log(Line(content));
  }

  /** `log_panel(title, content, border_style)`: a panel with the content
      redacted; the border is blue unless the caller chooses another. */
  method LogPanel(console: Console, title: string, content: string, borderStyle: Style := BlueBorderStyle)
    modifies console
    ensures console.records == old(console.records) + [Boxed(Panel(Redact(content), title, borderStyle))]
    ensures MentionsSql(content) ==> console.records[|console.records| - 1].panel.content == Hidden
  {
    var shown := Redact(content);
    console.Log(Boxed(Panel(shown, title, borderStyle)));
  }
}
