/** SQL delimited identifiers. The tools put a table name between double
    quotes after doubling every double quote inside it; SQLite reads a
    doubled quote as one quote character of the name and a single quote as
    the end of the name. */
module Identifiers {
  import opened Wrappers

  /** `name.replace('"', '""')`: every double quote doubled, every other
      character kept. */
  function Escape(name: string): (r: string)
    ensures |r| >= |name|
    ensures '"' !in name ==> r == name
  {
    if name == [] then []
    else (if name[0] == '"' then "\"\"" else [name[0]]) + Escape(name[1..])
  }

  /** Escaping doubles the quotes and keeps every other character. */
  lemma {:induction false} EscapeCounts(name: string)
    ensures |Escape(name)| == |name| + multiset(name)['"']
    ensures multiset(Escape(name))['"'] == 2 * multiset(name)['"']
    ensures forall c | c != '"' :: multiset(Escape(name))[c] == multiset(name)[c]
  {
    if name != [] {
      EscapeCounts(name[1..]);
      var e := if name[0] == '"' then "\"\"" else [name[0]];
      assert Escape(name) == e + Escape(name[1..]);
      assert multiset(Escape(name)) == multiset(e) + multiset(Escape(name[1..]));
      assert name == [name[0]] + name[1..];
      assert multiset(name) == multiset([name[0]]) + multiset(name[1..]);
    }
  }

  /** The identifier as the tools write it into a statement: `"{safe}"`,
      a name without quotes simply put between two. */
  function Quote(name: string): (r: string)
    ensures |r| >= |name| + 2 && r[0] == '"' && r[|r| - 1] == '"'
    ensures '"' !in name ==> r[1..|r| - 1] == name
  {
    "\"" + Escape(name) + "\""
  }

  /** How SQLite reads a delimited identifier, starting just after its
      opening quote: the name read and the text after the closing quote, or
      `None` when the text ends before the identifier is closed. */
  function ReadQuoted(s: string): (r: Option<(string, string)>)
    ensures r.Some? ==> |r.value.1| < |s|
    decreases |s|
  {
    if s == [] then None
    else if s[0] == '"' then
      if |s| >= 2 && s[1] == '"' then
        match ReadQuoted(s[2..])
        case None => None
        case Some(p) => Some(("\"" + p.0, p.1))
      else Some(([], s[1..]))
    else
      match ReadQuoted(s[1..])
      case None => None
      case Some(p) => Some(([s[0]] + p.0, p.1))
  }

  /** The escaped name cannot end the identifier early: SQLite reads back
      exactly the name, and the text after the closing quote is untouched
      (provided it does not itself start with a quote). */
  lemma {:induction false} ReadEscaped(name: string, rest: string)
    requires rest == [] || rest[0] != '"'
    ensures ReadQuoted(Escape(name) + "\"" + rest) == Some((name, rest))
    decreases |name|
  {
    var s := Escape(name) + "\"" + rest;
    if name == [] {
      assert s == "\"" + rest;
      assert s[1..] == rest;
    } else if name[0] == '"' {
      var e := Escape(name[1..]);
      assert Escape(name) == "\"\"" + e;
      assert s == "\"\"" + (e + "\"" + rest);
      assert s[2..] == Escape(name[1..]) + "\"" + rest;
      ReadEscaped(name[1..], rest);
      assert "\"" + name[1..] == name;
    } else {
      var e := Escape(name[1..]);
      assert Escape(name) == [name[0]] + e;
      assert s == [name[0]] + (e + "\"" + rest);
      assert s[1..] == Escape(name[1..]) + "\"" + rest;
      ReadEscaped(name[1..], rest);
      assert [name[0]] + name[1..] == name;
    }
  }

  /** Undoubling: the name an escaped text stands for, or `None` when the
      text holds a lone quote (which would close the identifier early). */
  function Unescape(escaped: string): Option<string>
  {
    match ReadQuoted(escaped + "\"")
    case Some(p) => if p.1 == [] then Some(p.0) else None
    case None => None
  }

  /** Undoubling the escaped name gives the name back. */
  lemma UnescapeEscape(name: string)
    ensures Unescape(Escape(name)) == Some(name)
  {
    ReadEscaped(name, []);
    assert Escape(name) + "\"" + [] == Escape(name) + "\"";
  }

  /** In a statement `prefix + Quote(name) + suffix`, the identifier that
      starts after `prefix` is `name`, followed by `suffix`: whatever the
      name holds, it cannot change the statement around it. */
  lemma QuotedInStatement(prefix: string, name: string, suffix: string)
    requires suffix == [] || suffix[0] != '"'
    ensures var s := prefix + Quote(name) + suffix;
            |prefix| < |s| && s[|prefix|] == '"' &&
            ReadQuoted(s[|prefix| + 1..]) == Some((name, suffix))
  {
    var s := prefix + Quote(name) + suffix;
    assert s[|prefix| + 1..] == Escape(name) + "\"" + suffix;
    ReadEscaped(name, suffix);
  }

  /** Different names give different quoted identifiers. */
  lemma QuoteInjective(a: string, b: string)
    requires Quote(a) == Quote(b)
    ensures a == b
  {
    ReadEscaped(a, []);
    ReadEscaped(b, []);
    assert Escape(a) == Quote(a)[1..|Quote(a)| - 1];
    assert Escape(b) == Quote(b)[1..|Quote(b)| - 1];
  }
}
