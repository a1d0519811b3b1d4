/**
  The console's escaping of what a server sent: four passes over a string, each replacing
  one character in place until none is left. Reading character references back follows
  section 13.5 of the WHATWG HTML Living Standard.
  */
module Html {
  // ---- One pass ----

  function Count(s: string, c: char): nat {
    if s == "" then 0 else (if s[0] == c then 1 else 0) + Count(s[1..], c)
  }

  /** Every c becomes r. */
  function Substitute(s: string, c: char, r: string): string {
    if s == "" then "" else (if s[0] == c then r else [s[0]]) + Substitute(s[1..], c, r)
  }

  lemma {:induction false} CountSplit(a: string, b: string, c: char)
    ensures Count(a + b, c) == Count(a, c) + Count(b, c)
  {
    if a == "" {
      assert a + b == b;
    } else {
      assert (a + b)[1..] == a[1..] + b;
      CountSplit(a[1..], b, c);
    }
  }

  lemma {:induction false} SubstituteSplit(a: string, b: string, c: char, r: string)
    ensures Substitute(a + b, c, r) == Substitute(a, c, r) + Substitute(b, c, r)
  {
    if a == "" {
      assert a + b == b;
    } else {
      assert (a + b)[1..] == a[1..] + b;
      SubstituteSplit(a[1..], b, c, r);
    }
  }

  lemma {:induction false} SubstituteNone(s: string, c: char, r: string)
    requires c !in s
    ensures Substitute(s, c, r) == s && Count(s, c) == 0
  {
    if s != "" { SubstituteNone(s[1..], c, r); }
  }

  lemma {:induction false} CountSome(s: string, c: char)
    ensures Count(s, c) > 0 <==> c in s
  {
    if s != "" { CountSome(s[1..], c); }
  }

  /** The text after one round of the loop, which puts r in the place of the character at k. */
  function Round(s: string, k: nat, r: string): string
    requires k < |s|
  {
    s[..k] + r + s[k + 1..]
  }

  lemma RoundCounts(s: string, k: nat, c: char, r: string)
    requires k < |s| && s[k] == c
    ensures Count(Round(s, k, r), c) == Count(s, c) - 1 + Count(r, c)
  {
    var a, b := s[..k], s[k + 1..];
    assert ([c] + b)[1..] == b;
    assert Count([c] + b, c) == 1 + Count(b, c);
    hide Count;
    assert s == a + ([c] + b);
    CountSplit(a, [c] + b, c);
    CountSplit(a + r, b, c);
    CountSplit(a, r, c);
  }

  lemma Associative(a: string, b: string, c: string)
    ensures (a + b) + c == a + (b + c)
  {
  }

  lemma SubstituteFirst(c: char, b: string, r: string)
    ensures Substitute([c] + b, c, r) == r + Substitute(b, c, r)
  {
    assert ([c] + b)[1..] == b;
  }

  lemma RoundSubstitutes(s: string, k: nat, c: char, r: string)
    requires k < |s| && s[k] == c && c !in r
    ensures Substitute(Round(s, k, r), c, r) == Substitute(s, c, r)
  {
    var a, b := s[..k], s[k + 1..];
    SubstituteNone(r, c, r);
    hide Substitute;
    assert s == a + ([c] + b);
    var a', b' := Substitute(a, c, r), Substitute(b, c, r);
    calc {
      Substitute(Round(s, k, r), c, r);
      { SubstituteSplit(a + r, b, c, r); SubstituteSplit(a, r, c, r); }
      (a' + r) + b';
      { Associative(a', r, b'); }
      a' + (r + b');
      { SubstituteFirst(c, b, r); SubstituteSplit(a, [c] + b, c, r); }
      Substitute(s, c, r);
    }
  }

  /**
    A round brings the end of the loop nearer exactly when the replacement does not contain
    the character; otherwise the character is still there afterwards, so the loop never ends.
    */
  lemma RoundEndsExactlyWhen(s: string, k: nat, c: char, r: string)
    requires k < |s| && s[k] == c
    ensures Count(Round(s, k, r), c) < Count(s, c) <==> c !in r
    ensures c in r ==> c in Round(s, k, r)
  {
    RoundCounts(s, k, c, r);
    CountSome(r, c);
    CountSome(s, c);
    CountSome(Round(s, k, r), c);
  }

  /** std::string::find */
  function Find(s: string, c: char): (k: nat)
    ensures k <= |s| && c !in s[..k] && (k < |s| ==> s[k] == c)
  {
    if s == "" || s[0] == c then 0 else 1 + Find(s[1..], c)
  }

  /** A std::string that is changed in place. */
  class Text {
    var buf: string

    constructor (data: string)
      ensures buf == data
    {
      buf := data;
    }

    /** change_to_html_format */
    method ChangeToHtmlFormat(target: char, name: string)
      requires target !in "&" + name + ";"
      modifies this
      ensures buf == Substitute(old(buf), target, "&" + name + ";") && target !in buf
    {
      var startSymbol := "&";
      var replaceString := name + ";";
      ghost var r := "&" + name + ";";
      assert startSymbol + replaceString == r;
      var index := Find(buf, target);
      while index != |buf|
        invariant index == Find(buf, target) && target !in r
        invariant Substitute(buf, target, r) == Substitute(old(buf), target, r)
        decreases Count(buf, target)
      {
        RoundEndsExactlyWhen(buf, index, target, r);
        RoundSubstitutes(buf, index, target, r);
        ghost var next := Round(buf, index, r);
        buf := buf[..index] + startSymbol + buf[index + 1..];
        buf := buf[..index + 1] + replaceString + buf[index + 1..];
        assert buf == next;
        index := Find(buf, target);
      }
      assert buf[..|buf|] == buf;
      SubstituteNone(buf, target, r);
    }

    /** The four passes of print_output. */
    method Escaped()
      modifies this
      ensures buf == Escape(old(buf))
      ensures '\n' !in buf && '\'' !in buf && '<' !in buf && '>' !in buf
    {
      ghost var data := buf;
      ChangeToHtmlFormat('\n', "NewLine");
      ChangeToHtmlFormat('\'', "#x27");
      ChangeToHtmlFormat('<', "lt");
      ChangeToHtmlFormat('>', "gt");
      ReferencesAre();
      PassesAreEscape(data);
      NoneLeft(data);
    }
  }

  // ---- The four passes together ----

  /** The name of the reference that stands for a raw character, or "" for the others. */
  function NameFor(c: char): string {
    if c == '\n' then "NewLine" else if c == '\'' then "#x27" else if c == '<' then "lt" else if c == '>' then "gt"
      else ""
  }

  predicate Raw(c: char) {
    c == '\n' || c == '\'' || c == '<' || c == '>'
  }

  function Reference(c: char): string {
    if Raw(c) then "&" + NameFor(c) + ";" else [c]
  }

  /** One simultaneous substitution. */
  function Escape(s: string): string {
    if s == "" then "" else Reference(s[0]) + Escape(s[1..])
  }

  lemma ReferencesAre()
    ensures Reference('\n') == "&" + "NewLine" + ";" && Reference('\'') == "&" + "#x27" + ";"
    ensures Reference('<') == "&" + "lt" + ";" && Reference('>') == "&" + "gt" + ";"
  {
  }

  /** One of the passes. */
  function Pass(s: string, c: char): string {
    Substitute(s, c, Reference(c))
  }

  function Passes(s: string): string {
    Pass(Pass(Pass(Pass(s, '\n'), '\''), '<'), '>')
  }

  lemma PassesSplit(a: string, b: string)
    ensures Passes(a + b) == Passes(a) + Passes(b)
  {
    var a1, b1 := Pass(a, '\n'), Pass(b, '\n');
    var a2, b2 := Pass(a1, '\''), Pass(b1, '\'');
    var a3, b3 := Pass(a2, '<'), Pass(b2, '<');
    SubstituteSplit(a, b, '\n', Reference('\n'));
    SubstituteSplit(a1, b1, '\'', Reference('\''));
    SubstituteSplit(a2, b2, '<', Reference('<'));
    SubstituteSplit(a3, b3, '>', Reference('>'));
    hide Substitute, Reference;
  }

  lemma PassOne(x: char, c: char)
    ensures Pass([x], c) == if x == c then Reference(c) else [x]
  {
    var r := Reference(c);
    assert [x][1..] == "" && Substitute("", c, r) == "";
    assert r + "" == r && [x] + "" == [x];
  }

  /** A reference goes through later passes unchanged. */
  lemma PassSafe(x: char, c: char)
    requires Raw(c) && (Raw(x) || x != c)
    ensures Pass(Reference(x), c) == Reference(x)
  {
    ReferenceIsSafe(x);
    SubstituteNone(Reference(x), c, Reference(c));
  }

  lemma PassesOne(x: char)
    ensures Passes([x]) == Reference(x)
  {
    PassOne(x, '\n');
    PassOne(x, '\'');
    PassOne(x, '<');
    PassOne(x, '>');
    if Raw(x) {
      PassSafe(x, '\'');
      PassSafe(x, '<');
      PassSafe(x, '>');
    }
    hide Pass;
  }

  /** The four passes one after the other are one simultaneous substitution. */
  lemma {:induction false} PassesAreEscape(s: string)
    ensures Passes(s) == Escape(s)
  {
    if s != "" {
      assert s == [s[0]] + s[1..];
      PassesSplit([s[0]], s[1..]);
      PassesOne(s[0]);
      PassesAreEscape(s[1..]);
    }
  }

  lemma {:induction false} NoneLeft(s: string)
    ensures forall c :: c in Escape(s) ==> !Raw(c)
  {
    if s != "" {
      NoneLeft(s[1..]);
      ReferenceIsSafe(s[0]);
    }
  }

  lemma ReferenceIsSafe(x: char)
    ensures forall c :: c in Reference(x) ==> !Raw(c)
  {
  }

  // ---- Reading references back ----

  /**
    Character references: what may stand after an `&`, with or without a semicolon, and what
    it stands for. Numbered references are entries like named ones.
    */
  type References = imap<string, string>

  /** The longest start of s of at most k characters that the table has; 0 for none. */
  ghost function Longest(s: string, refs: References, k: nat): (n: nat)
    requires k <= |s|
    ensures n <= k && (n > 0 ==> s[..n] in refs)
    ensures forall j :: n < j <= k ==> s[..j] !in refs
  {
    if k == 0 || s[..k] in refs then k else Longest(s, refs, k - 1)
  }

  /** How many characters after an `&` belong to a reference. */
  ghost function RefLength(s: string, refs: References): (n: nat)
    ensures n <= |s|
  {
    Longest(s, refs, |s|)
  }

  /** What a reader sees of a text with references. */
  ghost function Decode(s: string, refs: References): string
    decreases |s|
  {
    if s == "" then ""
    else if s[0] == '&' && RefLength(s[1..], refs) > 0 then
      var n := RefLength(s[1..], refs);
      refs[s[1..][..n]] + Decode(s[1..][n..], refs)
    else [s[0]] + Decode(s[1..], refs)
  }

  predicate PlainName(name: string) {
    && (forall i :: 0 <= i < |name| ==> name[i] != '&' && !Raw(name[i]))
    && (forall i :: 0 <= i < |name| - 1 ==> name[i] != ';')
  }

  /** The entry for the reference that stands for a raw character. */
  function EntryFor(c: char): string {
    NameFor(c) + ";"
  }

  /** A table that has the four references used here. */
  ghost predicate Table(refs: References) {
    && (forall name :: name in refs ==> PlainName(name) && |refs[name]| <= |name|)
    && "NewLine;" in refs && refs["NewLine;"] == "\n" && "#x27;" in refs && refs["#x27;"] == "'"
    && "lt;" in refs && refs["lt;"] == "<" && "gt;" in refs && refs["gt;"] == ">"
  }

  /** An entry that s starts with, and no longer one, is what is read. */
  lemma RefLengthIs(s: string, refs: References, n: nat)
    requires n <= |s| && s[..n] in refs
    requires forall j :: n < j <= |s| ==> s[..j] !in refs
    ensures n > 0 ==> RefLength(s, refs) == n
  {
  }

  lemma EscapeHead(s: string)
    requires s != ""
    ensures |Escape(s)| >= 1 && (Raw(s[0]) ==> Escape(s)[0] == '&')
    ensures !Raw(s[0]) ==> Escape(s) == [s[0]] + Escape(s[1..])
  {
  }

  predicate PlainTo(s: string, k: nat)
    requires k <= |s|
  {
    forall i :: 0 <= i < k ==> !Raw(s[i])
  }

  lemma PlainTail(s: string, k: nat)
    requires 0 < k <= |s| && PlainTo(s, k)
    ensures !Raw(s[0]) && PlainTo(s[1..], k - 1)
  {
  }

  lemma HeadOfPrefix(s: string, k: nat)
    requires 0 < k <= |s|
    ensures s[..k] == [s[0]] + s[1..][..k - 1] && s[1..][k - 1..] == s[k..]
  {
  }

  /** Plain characters are copied. */
  lemma {:induction false} EscapeCopies(s: string, k: nat)
    requires k <= |s| && PlainTo(s, k)
    ensures Escape(s) == s[..k] + Escape(s[k..])
  {
    if k == 0 {
      assert s[..0] + Escape(s) == Escape(s) && s[0..] == s;
    } else {
      PlainTail(s, k);
      EscapeHead(s);
      EscapeCopies(s[1..], k - 1);
      HeadOfPrefix(s, k);
      hide Escape, PlainTo, Raw;
      Associative([s[0]], s[1..][..k - 1], Escape(s[k..]));
    }
  }

  /** Where the escaped text has no `&`, the text has the same characters. */
  lemma {:induction false} CopiedPrefix(s: string, k: nat)
    requires k <= |Escape(s)| && '&' !in Escape(s)[..k]
    ensures k <= |s| && s[..k] == Escape(s)[..k]
  {
    if k > 0 {
      var e := Escape(s);
      assert e[..k][0] == e[0];
      EscapeHead(s);
      hide Escape;
      assert e[..k] == [s[0]] + Escape(s[1..])[..k - 1];
      CopiedPrefix(s[1..], k - 1);
      assert s[..k] == [s[0]] + s[1..][..k - 1];
    }
  }

  /** What s starts with, the escaped text starts with. */
  lemma EntryStays(s: string, refs: References, n: nat)
    requires Table(refs) && n <= |s| && s[..n] in refs
    ensures n <= |Escape(s)| && Escape(s)[..n] == s[..n] && Escape(s)[n..] == Escape(s[n..])
  {
    var name := s[..n];
    assert PlainName(name);
    forall i | 0 <= i < n
      ensures !Raw(s[i])
    {
      assert name[i] == s[i];
    }
    EscapeCopies(s, n);
    hide Escape;
  }

  /** And the other way round. */
  lemma EntryWas(s: string, refs: References, n: nat)
    requires Table(refs) && n <= |Escape(s)| && Escape(s)[..n] in refs
    ensures n <= |s| && s[..n] == Escape(s)[..n]
  {
    var name := Escape(s)[..n];
    assert PlainName(name);
    assert '&' !in name;
    CopiedPrefix(s, n);
  }

  /** Escaping neither breaks a reference after an `&` of the text, nor makes one. */
  lemma RefLengthStays(s: string, refs: References)
    requires Table(refs)
    ensures var n := RefLength(s, refs);
            && RefLength(Escape(s), refs) == n && n <= |Escape(s)|
            && (n > 0 ==> Escape(s)[..n] == s[..n] && Escape(s)[n..] == Escape(s[n..]))
  {
    var e := Escape(s);
    var n, m := RefLength(s, refs), RefLength(e, refs);
    hide Escape, Table;
    if n > 0 { EntryStays(s, refs, n); }
    if m > 0 { EntryWas(s, refs, m); }
    if n > 0 { assert e[..n] in refs; }
    if m > 0 { assert s[..m] in refs; }
  }

  lemma EntriesAre()
    ensures EntryFor('\n') == "NewLine;" && EntryFor('\'') == "#x27;"
    ensures EntryFor('<') == "lt;" && EntryFor('>') == "gt;"
  {
  }

  lemma EntryIsPlain(c: char)
    requires Raw(c)
    ensures Reference(c) == "&" + EntryFor(c) && |EntryFor(c)| > 0 && EntryFor(c)[|EntryFor(c)| - 1] == ';'
  {
  }

  /** The semicolon ends the reference. */
  lemma EntryIsLongest(name: string, rest: string, refs: References, j: nat)
    requires Table(refs) && |name| > 0 && name[|name| - 1] == ';' && |name| < j <= |name + rest|
    ensures (name + rest)[..j] !in refs
  {
    var longer := (name + rest)[..j];
    assert longer[|name| - 1] == ';';
    assert !PlainName(longer);
  }

  lemma DecodeReference(c: char, rest: string, refs: References)
    requires Table(refs) && Raw(c)
    ensures Decode(Reference(c) + rest, refs) == [c] + Decode(rest, refs)
  {
    var name := EntryFor(c);
    EntryIsPlain(c);
    EntriesAre();
    assert name in refs && refs[name] == [c];
    var t, u := Reference(c) + rest, name + rest;
    hide EntryFor, Table, Reference, RefLength, Raw;
    assert t[0] == '&' && t[1..] == u;
    assert u[..|name|] == name && u[|name|..] == rest;
    forall j | |name| < j <= |u|
      ensures u[..j] !in refs
    {
      EntryIsLongest(name, rest, refs, j);
    }
    RefLengthIs(u, refs, |name|);
  }

  /** For every text: a reader sees the escaped text as it would have seen the text itself. */
  lemma {:induction false} EscapingKeepsMeaning(s: string, refs: References)
    requires Table(refs)
    ensures Decode(Escape(s), refs) == Decode(s, refs)
    decreases |s|
  {
    if s != "" {
      var rest := s[1..];
      if Raw(s[0]) {
        EscapingKeepsMeaning(rest, refs);
        DecodeReference(s[0], Escape(rest), refs);
      } else {
        assert Escape(s) == [s[0]] + Escape(rest) && Escape(s)[1..] == Escape(rest);
        RefLengthStays(rest, refs);
        hide Escape, Table, RefLength;
        if s[0] == '&' && RefLength(rest, refs) > 0 {
          EscapingKeepsMeaning(rest[RefLength(rest, refs)..], refs);
        } else {
          EscapingKeepsMeaning(rest, refs);
        }
      }
    }
  }

  /** The text itself contains something that reads as a reference. */
  ghost predicate HasReference(s: string, refs: References) {
    s != "" && ((s[0] == '&' && RefLength(s[1..], refs) > 0) || HasReference(s[1..], refs))
  }

  lemma {:induction false} DecodeShortens(s: string, refs: References)
    requires Table(refs)
    ensures |Decode(s, refs)| <= |s|
    ensures Decode(s, refs) == s <==> !HasReference(s, refs)
    decreases |s|
  {
    if s != "" {
      DecodeShortens(s[1..], refs);
      if s[0] == '&' && RefLength(s[1..], refs) > 0 {
        DecodeShortens(s[1..][RefLength(s[1..], refs)..], refs);
      } else {
        assert s == [s[0]] + s[1..];
        assert Decode(s, refs)[1..] == Decode(s[1..], refs);
      }
    }
  }

  lemma {:induction false} NoAmpersandNoReference(s: string, refs: References)
    requires '&' !in s
    ensures !HasReference(s, refs)
  {
    if s != "" { NoAmpersandNoReference(s[1..], refs); }
  }

  /**
    Escaping is undone by reading exactly for the texts that contain no reference of their
    own, for instance for all texts without `&`, which the code does not escape.
    */
  lemma EscapingIsUndoneExactlyWhen(s: string, refs: References)
    requires Table(refs)
    ensures Decode(Escape(s), refs) == s <==> !HasReference(s, refs)
    ensures '&' !in s ==> Decode(Escape(s), refs) == s
  {
    EscapingKeepsMeaning(s, refs);
    DecodeShortens(s, refs);
    if '&' !in s { NoAmpersandNoReference(s, refs); }
  }
}
