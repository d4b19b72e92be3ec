/** The TRUNCATE statement of the nuke command: quoted identifiers, joined, and read back by a lexer with
    the quoting rules of section 4.1.1 of the PostgreSQL manual. */
module Truncate {
  import opened Wrappers

  // ---------------------------------------------------------------- printing

  /** `strings.ReplaceAll(name, "\"", "\"\"")` */
  function Doubled(name: string): string {
    if name == "" then ""
    else (if name[0] == '"' then "\"\"" else [name[0]]) + Doubled(name[1..])
  }

  /** `pgxIdent` */
  function Quoted(name: string): string {
    "\"" + Doubled(name) + "\""
  }

  function Quotes(names: seq<string>): seq<string> {
    if names == [] then [] else [Quoted(names[0])] + Quotes(names[1..])
  }

  /** `strings.Join(parts, ", ")` */
  function Joined(parts: seq<string>): string {
    if parts == [] then ""
    else if |parts| == 1 then parts[0]
    else parts[0] + ", " + Joined(parts[1..])
  }

  function Statement(names: seq<string>): string {
    "TRUNCATE TABLE " + Joined(Quotes(names)) + " CASCADE"
  }

  lemma {:induction false} QuotesAppend(names: seq<string>, name: string)
    ensures Quotes(names + [name]) == Quotes(names) + [Quoted(name)]
  {
    if names == [] {
      assert [] + [name] == [name];
    } else {
      QuotesAppend(names[1..], name);
      assert (names + [name])[1..] == names[1..] + [name];
    }
  }

  /** `truncateAll`, from the rows of the query to the statement that is executed; nothing is if there is
      no table. */
  method TruncateAll(rows: seq<string>) returns (statement: Option<string>)
    ensures statement == if rows == [] then None else Some(Statement(rows))
  {
    var tables: seq<string> := [];
    for i := 0 to |rows|
      invariant tables == Quotes(rows[..i])
    {
      QuotesAppend(rows[..i], rows[i]);
      assert rows[..i + 1] == rows[..i] + [rows[i]];
      tables := tables + [Quoted(rows[i])];
    }
    assert rows[..|rows|] == rows;
    if |tables| == 0 {
      return None;
    }
    return Some("TRUNCATE TABLE " + Joined(tables) + " CASCADE");
  }

  // ---------------------------------------------------------------- lexing

  datatype Token = Word(text: string) | Ident(name: string) | Comma

  predicate Letter(c: char) {
    'a' <= c <= 'z' || 'A' <= c <= 'Z'
  }

  /** The rest of a quoted identifier: a doubled quote stands for one, a single one ends it. */
  function LexQuoted(s: string): (r: Option<(string, string)>)
    ensures r.Some? ==> |r.value.1| < |s|
  {
    if s == "" then None
    else if s[0] != '"' then
      match LexQuoted(s[1..])
      case None => None
      case Some((name, rest)) => Some(([s[0]] + name, rest))
    else if |s| > 1 && s[1] == '"' then
      match LexQuoted(s[2..])
      case None => None
      case Some((name, rest)) => Some((['"'] + name, rest))
    else Some(("", s[1..]))
  }

  function LexWord(s: string): (r: (string, string))
    ensures s == r.0 + r.1
    ensures s != "" && Letter(s[0]) ==> |r.1| < |s|
  {
    if s == "" || !Letter(s[0]) then ("", s)
    else var r := LexWord(s[1..]); ([s[0]] + r.0, r.1)
  }

  /** The tokens of a statement; a zero-length quoted identifier is an error. */
  function Lex(s: string): Option<seq<Token>>
    decreases |s|
  {
    if s == "" then Some([])
    else if s[0] == ' ' then Lex(s[1..])
    else if s[0] == ',' then Follow(Comma, Lex(s[1..]))
    else if s[0] == '"' then
      match LexQuoted(s[1..])
      case None => None
      case Some((name, rest)) => if name == "" then None else Follow(Ident(name), Lex(rest))
    else if Letter(s[0]) then
      var r := LexWord(s);
      Follow(Word(r.0), Lex(r.1))
    else None
  }

  function Follow(t: Token, more: Option<seq<Token>>): Option<seq<Token>> {
    match more case None => None case Some(ts) => Some([t] + ts)
  }

  // ---------------------------------------------------------------- there and back

  lemma {:induction false} DoubledReads(name: string, rest: string)
    requires rest != "" ==> rest[0] != '"'
    ensures LexQuoted(Doubled(name) + "\"" + rest) == Some((name, rest))
  {
    var s := Doubled(name) + "\"" + rest;
    if name == "" {
      assert s[1..] == rest;
    } else {
      DoubledReads(name[1..], rest);
      var later := Doubled(name[1..]) + "\"" + rest;
      assert name == [name[0]] + name[1..];
      if name[0] == '"' {
        assert s == "\"\"" + later && s[2..] == later;
      } else {
        assert s == [name[0]] + later && s[1..] == later;
      }
    }
  }

  lemma QuotedReads(name: string, rest: string)
    requires rest != "" ==> rest[0] != '"'
    ensures Lex(Quoted(name) + rest) == if name == "" then None else Follow(Ident(name), Lex(rest))
  {
    DoubledReads(name, rest);
    QuotedStarts(name, rest);
  }

  lemma QuotedStarts(name: string, rest: string)
    ensures var s := Quoted(name) + rest;
      s != "" && s[0] == '"' && s[1..] == Doubled(name) + "\"" + rest
  {
  }

  /** The tokens of the list of names, and those after it. */
  function ListTokens(names: seq<string>, after: seq<Token>): seq<Token> {
    if names == [] then after
    else if |names| == 1 then [Ident(names[0])] + after
    else [Ident(names[0]), Comma] + ListTokens(names[1..], after)
  }

  lemma {:induction false} ListReads(names: seq<string>, rest: string)
    requires names != [] && (rest != "" ==> rest[0] != '"') && Lex(rest).Some?
    ensures Lex(Joined(Quotes(names)) + rest) ==
      if "" in names then None else Some(ListTokens(names, Lex(rest).value))
  {
    if |names| == 1 {
      QuotedReads(names[0], rest);
      assert Joined(Quotes(names)) == Quoted(names[0]);
    } else {
      var later := Joined(Quotes(names[1..])) + rest;
      ListReads(names[1..], rest);
      ListSplit(names, rest);
      QuotedReads(names[0], "," + (" " + later));
      TokensSplit(names, Lex(rest).value);
    }
  }

  lemma ListSplit(names: seq<string>, rest: string)
    requires |names| > 1
    ensures Joined(Quotes(names)) + rest == Quoted(names[0]) + ("," + (" " + (Joined(Quotes(names[1..])) + rest)))
  {
    assert Quotes(names)[1..] == Quotes(names[1..]);
    CommaAssoc(Quoted(names[0]), Joined(Quotes(names[1..])), rest);
  }

  lemma CommaAssoc(a: string, b: string, c: string)
    ensures a + ", " + b + c == a + ("," + (" " + (b + c)))
  {
  }

  lemma TokensSplit(names: seq<string>, after: seq<Token>)
    requires |names| > 1
    ensures ListTokens(names, after) == [Ident(names[0])] + ([Comma] + ListTokens(names[1..], after))
    ensures "" in names <==> names[0] == "" || "" in names[1..]
  {
    assert names == [names[0]] + names[1..];
  }

  lemma {:induction false} WordReads(word: string, rest: string)
    requires forall c :: c in word ==> Letter(c)
    requires rest != "" ==> !Letter(rest[0])
    ensures LexWord(word + rest) == (word, rest)
  {
    if word == "" {
      assert word + rest == rest;
    } else {
      assert (word + rest)[1..] == word[1..] + rest;
      WordReads(word[1..], rest);
      assert word == [word[0]] + word[1..];
    }
  }

  lemma KeywordReads(word: string, rest: string)
    requires word != "" && forall c :: c in word ==> Letter(c)
    requires rest != "" ==> !Letter(rest[0])
    ensures Lex(word + rest) == Follow(Word(word), Lex(rest))
  {
    WordReads(word, rest);
    assert (word + rest)[0] in word;
  }

  lemma CascadeReads()
    ensures Lex(" CASCADE") == Some([Word("CASCADE")])
  {
    KeywordReads("CASCADE", "");
    CascadeParts();
    assert Lex(" CASCADE") == Lex("CASCADE" + "");
  }

  lemma CascadeParts()
    ensures " CASCADE" == " " + ("CASCADE" + "")
    ensures Follow(Word("CASCADE"), Lex("")) == Some([Word("CASCADE")])
  {
    assert [Word("CASCADE")] + [] == [Word("CASCADE")];
  }

  /** The statement reads back as exactly the tables in order, whatever quotes, commas and spaces their
      names contain, unless a name is empty: then it does not lex. */
  lemma StatementReads(names: seq<string>)
    requires names != []
    ensures Lex(Statement(names)) ==
      if "" in names then None
      else Some([Word("TRUNCATE"), Word("TABLE")] + ListTokens(names, [Word("CASCADE")]))
  {
    CascadeReads();
    ListReads(names, " CASCADE");
    var list := Joined(Quotes(names)) + " CASCADE";
    TruncateTable(list);
    StatementParts(names, ListTokens(names, [Word("CASCADE")]));
  }

  lemma StatementParts(names: seq<string>, ts: seq<Token>)
    ensures Statement(names) == "TRUNCATE TABLE " + (Joined(Quotes(names)) + " CASCADE")
    ensures [Word("TRUNCATE")] + ([Word("TABLE")] + ts) == [Word("TRUNCATE"), Word("TABLE")] + ts
  {
  }

  lemma TruncateTable(list: string)
    ensures Lex("TRUNCATE TABLE " + list) == Follow(Word("TRUNCATE"), Follow(Word("TABLE"), Lex(list)))
  {
    var first, second := "TRUNCATE", "TABLE";
    KeywordReads(second, " " + list);
    KeywordReads(first, " " + (second + (" " + list)));
    KeywordsSplit(list);
  }

  lemma KeywordsSplit(list: string)
    ensures "TRUNCATE TABLE " + list == "TRUNCATE" + (" " + ("TABLE" + (" " + list)))
  {
  }

  /** The names among the tokens. */
  function Names(ts: seq<Token>): seq<string> {
    if ts == [] then [] else (if ts[0].Ident? then [ts[0].name] else []) + Names(ts[1..])
  }

  lemma {:induction false} ListNames(names: seq<string>, after: seq<Token>)
    ensures Names(ListTokens(names, after)) == names + Names(after)
  {
    if names == [] {
    } else {
      var ts := ListTokens(names, after);
      assert names == [names[0]] + names[1..];
      if |names| == 1 {
        assert ts[1..] == after;
      } else {
        ListNames(names[1..], after);
        assert ts[1..][1..] == ListTokens(names[1..], after);
        assert ts[1..][0] == Comma;
      }
    }
  }

  /** So no name can add, drop or change a table. */
  lemma StatementNames(names: seq<string>)
    requires names != [] && "" !in names
    ensures Lex(Statement(names)).Some? && Names(Lex(Statement(names)).value) == names
  {
    StatementReads(names);
    var after := [Word("CASCADE")];
    ListNames(names, after);
    assert after[1..] == [];
    var ts := [Word("TRUNCATE"), Word("TABLE")] + ListTokens(names, after);
    assert ts[1..][1..] == ListTokens(names, after);
    assert ts[0].Word? && ts[1..][0].Word?;
  }
}
