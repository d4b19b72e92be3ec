/** Cutting text at a separator. */
module Text {
  import opened Wrappers

  /** The part before the first `sep`, and the part after it if there is one. */
  function CutAt(s: string, sep: char): (r: (string, Option<string>))
    ensures sep !in r.0
    ensures s == match r.1 case None => r.0 case Some(after) => r.0 + [sep] + after
  {
    if s == "" then ("", None)
    else if s[0] == sep then ("", Some(s[1..]))
    else var r := CutAt(s[1..], sep); ([s[0]] + r.0, r.1)
  }

  lemma {:induction false} CutAtFirst(x: string, sep: char, u: string)
    requires sep !in x
    ensures CutAt(x + [sep] + u, sep) == (x, Some(u))
  {
    var s := x + [sep] + u;
    if x == "" {
      assert s[1..] == u;
    } else {
      assert s[1..] == x[1..] + [sep] + u;
      CutAtFirst(x[1..], sep, u);
      assert x == [x[0]] + x[1..];
    }
  }
}
