/** `_wikidata_values`: the QIDs of an upstream scalar or semicolon list. */
module WikidataValues {
  import opened Wrappers

  /** What `str.strip` removes. */
  predicate IsSpace(c: char) {
    var code := c as int;
    || 0x09 <= code <= 0x0D || 0x1C <= code <= 0x20 || code in {0x85, 0xA0, 0x1680, 0x2028, 0x2029, 0x202F, 0x205F, 0x3000}
    || 0x2000 <= code <= 0x200A
  }

  function Strip(s: string): string {
    if s == "" then ""
    else if IsSpace(s[0]) then Strip(s[1..])
    else if IsSpace(s[|s| - 1]) then Strip(s[..|s| - 1])
    else s
  }

  function OneValue(part: string): set<string> {
    if Strip(part) == "" then {} else {Strip(part)}
  }

  /** The stripped, non-empty parts of a semicolon list; `part` is the one being read. */
  function Parts(s: string, part: string): set<string> {
    if s == "" then OneValue(part)
    else if s[0] == ';' then OneValue(part) + Parts(s[1..], "")
    else Parts(s[1..], part + [s[0]])
  }

  function Values(value: Option<string>): set<string> {
    if value.None? then {} else Parts(value.value, "")
  }

  /** One of the two values lists all QIDs of the other. */
  predicate WikidataMatch(left: Option<string>, right: Option<string>) {
    var l, r := Values(left), Values(right);
    l != {} && r != {} && (l <= r || r <= l)
  }

  // ----- What stripping removes -----

  ghost predicate Blank(s: string) {
    forall i :: 0 <= i < |s| ==> IsSpace(s[i])
  }

  ghost predicate Trimmed(s: string) {
    s == "" || (!IsSpace(s[0]) && !IsSpace(s[|s| - 1]))
  }

  /** `s` is `middle` with blanks around it. */
  ghost predicate Padded(s: string, head: string, middle: string, tail: string) {
    s == head + middle + tail && Blank(head) && Blank(tail)
  }

  lemma PadHead(s: string, head: string, middle: string, tail: string)
    requires s != "" && IsSpace(s[0]) && Padded(s[1..], head, middle, tail)
    ensures Padded(s, [s[0]] + head, middle, tail)
  {
    assert s == [s[0]] + s[1..];
  }

  lemma PadTail(s: string, head: string, middle: string, tail: string)
    requires s != "" && IsSpace(s[|s| - 1]) && Padded(s[..|s| - 1], head, middle, tail)
    ensures Padded(s, head, middle, tail + [s[|s| - 1]])
  {
    assert s == s[..|s| - 1] + [s[|s| - 1]];
  }

  /** `Strip` takes blanks off both ends, and nothing else, until none is left there. */
  lemma {:induction false} StripTrims(s: string) returns (head: string, tail: string)
    ensures Padded(s, head, Strip(s), tail) && Trimmed(Strip(s))
  {
    hide IsSpace;
    if s == "" {
      head, tail := "", "";
    } else if IsSpace(s[0]) {
      var rest;
      rest, tail := StripTrims(s[1..]);
      PadHead(s, rest, Strip(s[1..]), tail);
      hide Padded, Trimmed;
      head := [s[0]] + rest;
    } else if IsSpace(s[|s| - 1]) {
      var rest;
      head, rest := StripTrims(s[..|s| - 1]);
      PadTail(s, head, Strip(s[..|s| - 1]), rest);
      hide Padded, Trimmed;
      tail := rest + [s[|s| - 1]];
    } else {
      head, tail := "", "";
    }
  }

  lemma {:induction false} StripBlank(s: string)
    requires Blank(s)
    ensures Strip(s) == ""
  {
    if s != "" { StripBlank(s[1..]); }
  }

  /** Padding a trimmed text with blanks makes no difference. */
  lemma {:induction false} StripPadded(head: string, middle: string, tail: string)
    requires Blank(head) && Blank(tail) && Trimmed(middle) && middle != ""
    ensures Strip(head + middle + tail) == middle
    decreases |head| + |tail|
  {
    var s := head + middle + tail;
    if head != "" {
      assert s[1..] == head[1..] + middle + tail;
      StripPadded(head[1..], middle, tail);
    } else if tail != "" {
      assert s[0] == middle[0];
      assert s[..|s| - 1] == head + middle + tail[..|tail| - 1];
      StripPadded(head, middle, tail[..|tail| - 1]);
    } else {
      assert s == middle;
    }
  }

  /** Blanks are blank, and what QIDs are made of is not. */
  lemma BlankCharacters(c: char)
    ensures c in {' ', '\t', '\n', '\r', '\U{000B}', '\U{000C}', '\U{00A0}', '\U{2003}', '\U{3000}'} ==> IsSpace(c)
    ensures 'A' <= c <= 'Z' || '0' <= c <= '9' || c == ';' ==> !IsSpace(c)
  {
  }

  // ----- What the list holds -----

  lemma {:induction false} PartsOfList(s: string, part: string, t: string)
    ensures Parts(s + ";" + t, part) == Parts(s, part) + Parts(t, "")
  {
    var all := s + ";" + t;
    if s == "" {
      assert all[1..] == t;
    } else {
      assert all[1..] == s[1..] + ";" + t;
      if s[0] == ';' {
        PartsOfList(s[1..], "", t);
      } else {
        PartsOfList(s[1..], part + [s[0]], t);
      }
    }
  }

  /** A semicolon separates two lists ... */
  lemma ValuesOfList(s: string, t: string)
    ensures Values(Some(s + ";" + t)) == Values(Some(s)) + Values(Some(t))
  {
    PartsOfList(s, "", t);
  }

  lemma {:induction false} PartsOfOne(s: string, part: string)
    requires ';' !in s
    ensures Parts(s, part) == OneValue(part + s)
  {
    if s == "" {
      assert part + s == part;
    } else {
      assert s[0] in s;
      assert forall c :: c in s[1..] ==> c in s;
      PartsOfOne(s[1..], part + [s[0]]);
      assert part + [s[0]] + s[1..] == part + s;
    }
  }

  /** ... and a text without one is a single value, or none when it is blank. */
  lemma ValuesOfOne(s: string)
    requires ';' !in s
    ensures Values(Some(s)) == if Blank(s) then {} else {Strip(s)}
    ensures Blank(s) <==> Strip(s) == ""
  {
    PartsOfOne(s, "");
    assert "" + s == s;
    var head, tail := StripTrims(s);
    if Blank(s) { StripBlank(s); }
  }

  ghost predicate IsQid(q: string) {
    q != "" && ';' !in q && Trimmed(q)
  }

  lemma ValuesOfQid(head: string, q: string, tail: string)
    requires IsQid(q) && Blank(head) && Blank(tail)
    ensures Values(Some(head + q + tail)) == {q}
  {
    StripPadded(head, q, tail);
    SemicolonIsNoBlank(head);
    SemicolonIsNoBlank(tail);
    ValuesOfOne(head + q + tail);
    assert head + q + tail != "" && Strip(head + q + tail) != "";
  }

  lemma SemicolonIsNoBlank(s: string)
    requires Blank(s)
    ensures ';' !in s
  {
  }

  /** A QID matches every list that has it among its parts, whatever blanks surround it. */
  lemma ListedQidMatches(q: string, before: string, head: string, tail: string, after: string)
    requires IsQid(q) && Blank(head) && Blank(tail)
    ensures WikidataMatch(Some(q), Some(before + ";" + (head + q + tail) + ";" + after))
    ensures WikidataMatch(Some(before + ";" + (head + q + tail) + ";" + after), Some(q))
    ensures WikidataMatch(Some(q), Some((head + q + tail) + ";" + after))
    ensures WikidataMatch(Some(q), Some(before + ";" + (head + q + tail)))
    ensures WikidataMatch(Some(q), Some(head + q + tail))
  {
    ValuesOfQid("", q, "");
    assert "" + q + "" == q;
    ValuesOfQid(head, q, tail);
    ValuesOfList(before, head + q + tail);
    ValuesOfList(before + ";" + (head + q + tail), after);
    ValuesOfList(head + q + tail, after);
  }

  /** Two values match exactly if both name a QID and not each of them one of its own. */
  lemma MatchExactly(left: Option<string>, right: Option<string>)
    ensures WikidataMatch(left, right) <==>
      && (exists q :: q in Values(left)) && (exists q :: q in Values(right))
      && !exists x, y :: x in Values(left) && x !in Values(right) && y in Values(right) && y !in Values(left)
    ensures WikidataMatch(left, right) <==> WikidataMatch(right, left)
    ensures WikidataMatch(left, right) ==> left.Some? && right.Some? && exists q :: q in Values(left) && q in Values(right)
  {
    var l, r := Values(left), Values(right);
    if !(l <= r) && !(r <= l) {
      var x :| x in l && x !in r;
      var y :| y in r && y !in l;
    }
    if l != {} { var q :| q in l; }
    if r != {} { var q :| q in r; }
  }

  /** Every value is a QID: trimmed, not empty, without a semicolon. */
  lemma {:induction false} PartsAreQids(s: string, part: string, q: string)
    requires ';' !in part && q in Parts(s, part)
    ensures IsQid(q)
  {
    if s != "" && s[0] != ';' {
      PartsAreQids(s[1..], part + [s[0]], q);
    } else if s != "" && q in Parts(s[1..], "") {
      PartsAreQids(s[1..], "", q);
    } else {
      var head, tail := StripTrims(part);
      assert forall c :: c in q ==> c in part;
    }
  }
}
