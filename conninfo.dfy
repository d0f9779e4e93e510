/**
 * The keyword/value connection-string format that the PostgreSQL driver
 * accepts: settings `keyword=value`, written one after another and separated
 * by single spaces.
 *
 * `Join` writes such a string. `Parse` is a simple reference reader, not the
 * driver's parser: it splits at every space and then splits each word at its
 * first '='. The two are inverse to each other: `Parse(Join(ps)) == Some(ps)`
 * for every non-empty list of settings in which no keyword holds a space or
 * '=' and no value holds a space (ParseJoin), and every string `Parse`
 * accepts is written back unchanged by `Join` (JoinParse). The empty list is
 * excluded: `Join([])` is "", which `Parse` reads as one word without '=',
 * and so rejects. `GetDSN` always writes six settings.
 *
 * The driver reads some strings differently from `Parse`:
 * - it skips blanks after '=', so an empty value takes the next setting as
 *   its value (the format writes an empty value as '');
 * - it splits at any whitespace, tabs and newlines included;
 * - it treats a backslash as an escape and a leading ' as the start of a
 *   quoted value.
 * The round trips proved here are therefore round trips through `Parse`.
 */
module Conninfo {

  datatype Option<+T> = None | Some(value: T)

  /** One setting: a keyword and its value. */
  type Pair = (string, string)

  /** The text of one setting. */
  function Setting(p: Pair): string
  {
    p.0 + "=" + p.1
  }

  /** The texts of a list of settings, in order. */
  function Settings(ps: seq<Pair>): (ws: seq<string>)
    ensures |ws| == |ps|
    ensures forall i :: 0 <= i < |ps| ==> ws[i] == Setting(ps[i])
  {
    if |ps| == 0 then [] else [Setting(ps[0])] + Settings(ps[1..])
  }

  /** Words put back together with one space between neighbours. */
  function Unwords(ws: seq<string>): string
  {
    if |ws| == 0 then ""
    else if |ws| == 1 then ws[0]
    else ws[0] + " " + Unwords(ws[1..])
  }

  /** A connection string: the settings in order, separated by single spaces. */
  function Join(ps: seq<Pair>): string
  {
    if |ps| == 0 then ""
    else if |ps| == 1 then Setting(ps[0])
    else Setting(ps[0]) + " " + Join(ps[1..])
  }

  /** The same string built from the left: all settings but the last, a space, the last. */
  function JoinLeft(ps: seq<Pair>): string
  {
    if |ps| == 0 then ""
    else if |ps| == 1 then Setting(ps[0])
    else JoinLeft(ps[..|ps| - 1]) + " " + Setting(ps[|ps| - 1])
  }

  lemma {:induction false} JoinIsJoinLeft(ps: seq<Pair>)
    ensures Join(ps) == JoinLeft(ps)
    decreases |ps|
  {
    if |ps| > 2 {
      var last := |ps| - 1;
      JoinIsJoinLeft(ps[1..]);
      JoinIsJoinLeft(ps[..last]);
      JoinIsJoinLeft(ps[1..][..last - 1]);
      assert ps[1..][..last - 1] == ps[..last][1..];
      assert ps[1..][last - 1] == ps[last];
      assert ps[..last][0] == ps[0];
    } else if |ps| == 2 {
      assert ps[..1] == [ps[0]];
    }
  }

  /**
   * Splits a string at every space. There is always at least one word, no
   * word holds a space, and joining the words with spaces gives back the
   * string.
   */
  function Words(s: string): (ws: seq<string>)
    ensures |ws| >= 1
    ensures forall i :: 0 <= i < |ws| ==> ' ' !in ws[i]
    ensures Unwords(ws) == s
    decreases |s|
  {
    if |s| == 0 then [""]
    else
      var rest := Words(s[1..]);
      if s[0] == ' ' then
        assert s == " " + s[1..];
        [""] + rest
      else
        var ws := [[s[0]] + rest[0]] + rest[1..];
        assert |rest| > 1 ==> Unwords(rest) == rest[0] + " " + Unwords(rest[1..]);
        assert |rest| > 1 ==> Unwords(ws) == ([s[0]] + rest[0]) + " " + Unwords(rest[1..]);
        assert s == [s[0]] + s[1..];
        ws
  }

  /**
   * Splits one word at its first '='. It fails exactly when the word holds no
   * '='; otherwise the keyword holds no '=' and the setting written back is
   * the word itself.
   */
  function SplitSetting(w: string): (r: Option<Pair>)
    ensures r.Some? <==> '=' in w
    ensures r.Some? ==> '=' !in r.value.0 && Setting(r.value) == w
    decreases |w|
  {
    if |w| == 0 then None
    else if w[0] == '=' then
      assert w == "=" + w[1..];
      Some(("", w[1..]))
    else
      assert w == [w[0]] + w[1..];
      match SplitSetting(w[1..])
      case None => None
      case Some(p) => Some(([w[0]] + p.0, p.1))
  }

  /** Reads every word as a setting; fails if one of them is not a setting. */
  function ParseWords(ws: seq<string>): (r: Option<seq<Pair>>)
    ensures r.Some? ==> Settings(r.value) == ws
  {
    if |ws| == 0 then Some([])
    else
      match SplitSetting(ws[0])
      case None => None
      case Some(p) =>
        match ParseWords(ws[1..])
        case None => None
        case Some(ps) =>
          assert ws == [ws[0]] + ws[1..];
          Some([p] + ps)
  }

  /** Reads a connection string with the reference reader: words, then settings. */
  function Parse(s: string): Option<seq<Pair>>
  {
    ParseWords(Words(s))
  }

  /** Settings that `Join` writes so that `Parse` reads them back: no space in any keyword or value, no "=" in a keyword. */
  predicate Plain(ps: seq<Pair>)
  {
    forall i :: 0 <= i < |ps| ==> ' ' !in ps[i].0 && '=' !in ps[i].0 && ' ' !in ps[i].1
  }

  lemma {:induction false} WordsOfWord(a: string)
    requires ' ' !in a
    ensures Words(a) == [a]
    decreases |a|
  {
    if |a| > 0 {
      WordsOfWord(a[1..]);
      assert [a[0]] + a[1..] == a;
    }
  }

  lemma {:induction false} WordsOfSpaced(a: string, b: string)
    requires ' ' !in a
    ensures Words(a + " " + b) == [a] + Words(b)
    decreases |a|
  {
    if |a| == 0 {
      assert a + " " + b == " " + b;
      assert (" " + b)[1..] == b;
    } else {
      WordsOfSpaced(a[1..], b);
      var s := a + " " + b;
      assert s[0] == a[0] && s[1..] == a[1..] + " " + b;
      assert [a[0]] + a[1..] == a;
    }
  }

  lemma {:induction false} SplitSettingOf(p: Pair)
    requires '=' !in p.0
    ensures SplitSetting(Setting(p)) == Some(p)
    decreases |p.0|
  {
    var w := Setting(p);
    if |p.0| == 0 {
      assert w == "=" + p.1;
      assert w[1..] == p.1;
    } else {
      var q := (p.0[1..], p.1);
      SplitSettingOf(q);
      assert w[0] == p.0[0] && w[1..] == Setting(q);
      assert [p.0[0]] + p.0[1..] == p.0;
    }
  }

  /** Reading back what `Join` wrote gives the same settings. */
  lemma {:induction false} ParseJoin(ps: seq<Pair>)
    requires |ps| > 0 && Plain(ps)
    ensures Parse(Join(ps)) == Some(ps)
    decreases |ps|
  {
    var w := Setting(ps[0]);
    assert ' ' !in w by {
      assert forall i :: 0 <= i < |w| ==> w[i] in ps[0].0 || w[i] == '=' || w[i] in ps[0].1;
    }
    SplitSettingOf(ps[0]);
    if |ps| == 1 {
      WordsOfWord(w);
      assert [w][0] == w && [w][1..] == [];
      assert ParseWords([]) == Some([]);
      assert [ps[0]] + [] == [ps[0]];
      assert ParseWords([w]) == Some([ps[0]]);
      assert [ps[0]] == ps;
    } else {
      var rest := ps[1..];
      assert Plain(rest) by {
        forall i | 0 <= i < |rest| ensures ' ' !in rest[i].0 && '=' !in rest[i].0 && ' ' !in rest[i].1 {
          assert rest[i] == ps[i + 1];
        }
      }
      ParseJoin(rest);
      WordsOfSpaced(w, Join(rest));
      var ws := [w] + Words(Join(rest));
      assert ws[0] == w && ws[1..] == Words(Join(rest));
      assert [ps[0]] + rest == ps;
    }
  }

  lemma {:induction false} JoinIsUnwords(ps: seq<Pair>)
    ensures Join(ps) == Unwords(Settings(ps))
    decreases |ps|
  {
    if |ps| > 1 {
      JoinIsUnwords(ps[1..]);
      assert Settings(ps)[1..] == Settings(ps[1..]);
    }
  }

  /** Every string the reader accepts is exactly what `Join` writes for what it read. */
  lemma JoinParse(s: string)
    requires Parse(s).Some?
    ensures Join(Parse(s).value) == s
  {
    JoinIsUnwords(Parse(s).value);
  }
}
