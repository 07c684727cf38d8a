/** Web tunnel host names: normalisation, and the lookups of request routing and of the TLS ask. */
module Hostname {
  import opened Bytes
  import opened Protocol

  // ---------------------------------------------------------------- strings

  /** The Unicode White_Space property, which `trim` goes by. */
  predicate IsSpace(c: char) {
    var n := c as int;
    || 0x09 <= n <= 0x0D || n == 0x20 || n == 0x85 || n == 0xA0 || n == 0x1680 || 0x2000 <= n <= 0x200A
    || n == 0x2028 || n == 0x2029 || n == 0x202F || n == 0x205F || n == 0x3000
  }

  lemma SpaceIff(c: char)
    ensures IsSpace(c) <==> c as int in {
      0x09, 0x0A, 0x0B, 0x0C, 0x0D, 0x20, 0x85, 0xA0, 0x1680, 0x2000, 0x2001, 0x2002, 0x2003, 0x2004, 0x2005, 0x2006,
      0x2007, 0x2008, 0x2009, 0x200A, 0x2028, 0x2029, 0x202F, 0x205F, 0x3000}
  {
  }

  function TrimStart(s: string): (r: string)
    ensures r == [] || !IsSpace(r[0])
    ensures |r| <= |s| && r == s[|s| - |r|..] && forall i :: 0 <= i < |s| - |r| ==> IsSpace(s[i])
  {
    if s != [] && IsSpace(s[0]) then TrimStart(s[1..]) else s
  }

  function TrimEnd(s: string): (r: string)
    ensures r == [] || !IsSpace(r[|r| - 1])
    ensures |r| <= |s| && r == s[..|r|] && forall i :: |r| <= i < |s| ==> IsSpace(s[i])
  {
    if s != [] && IsSpace(s[|s| - 1]) then TrimEnd(s[..|s| - 1]) else s
  }

  function Trim(s: string): string {
    TrimEnd(TrimStart(s))
  }

  function TrimDots(s: string): (r: string)
    ensures r == [] || r[|r| - 1] != '.'
    ensures |r| <= |s| && r == s[..|r|] && forall i :: |r| <= i < |s| ==> s[i] == '.'
  {
    if s != [] && s[|s| - 1] == '.' then TrimDots(s[..|s| - 1]) else s
  }

  function LowerChar(c: char): char {
    if 'A' <= c <= 'Z' then (c as int + 32) as char else c
  }

  /** `to_ascii_lowercase`, and `lower` of SQLite. */
  function Lower(s: string): (r: string)
    ensures |r| == |s| && forall i :: 0 <= i < |s| ==> r[i] == LowerChar(s[i])
  {
    if s == [] then [] else Lower(s[..|s| - 1]) + [LowerChar(s[|s| - 1])]
  }

  predicate EndsWith(s: string, t: string) {
    |t| <= |s| && s[|s| - |t|..] == t
  }

  // ---------------------------------------------------------------- normalisation

  predicate LabelChar(c: char) {
    'a' <= c <= 'z' || '0' <= c <= '9' || c == '-'
  }

  predicate Label(s: string) {
    && s != [] && |s| <= 63 && s[0] != '-' && s[|s| - 1] != '-'
    && forall i :: 0 <= i < |s| ==> LabelChar(s[i])
  }

  /** What is left of an input before the base domain is looked for. */
  function Core(value: string): string {
    Lower(TrimDots(Trim(value)))
  }

  function Slug(base: string, value: string): string {
    if EndsWith(value, "." + base) then value[..|value| - |base| - 1] else value
  }

  function NormalizeHostname(base: string, value: string): Option<string> {
    var slug := Slug(base, Core(value));
    if Label(slug) then Some(slug + "." + base) else None
  }

  /** The base domain as the configuration loads it: lower case, no dots at either end. */
  predicate BaseDomain(base: string) {
    && (forall i :: 0 <= i < |base| ==> LowerChar(base[i]) == base[i])
    && (base != [] ==> base[0] != '.' && base[|base| - 1] != '.')
  }

  function TrimDotsBefore(s: string): (r: string)
    ensures r == [] || r[0] != '.'
    ensures |r| <= |s| && r == s[|s| - |r|..] && forall i :: 0 <= i < |s| - |r| ==> s[i] == '.'
  {
    if s != [] && s[0] == '.' then TrimDotsBefore(s[1..]) else s
  }

  /** The base domain as it is loaded from `raw`. */
  function ConfiguredBase(raw: string): string {
    Lower(TrimDots(TrimDotsBefore(raw)))
  }

  /** The base domains that a configuration can give are exactly those of the predicate. */
  lemma {:induction false} BaseDomainIff(base: string)
    ensures BaseDomain(base) <==> exists raw :: ConfiguredBase(raw) == base
  {
    hide BaseDomain;
    hide ConfiguredBase;
    if exists raw :: ConfiguredBase(raw) == base {
      var raw :| ConfiguredBase(raw) == base;
      LoadedIsBase(raw);
    }
    if BaseDomain(base) {
      BaseLoads(base);
    }
  }

  lemma {:induction false} LoadedIsBase(raw: string)
    ensures BaseDomain(ConfiguredBase(raw))
  {
    var front := TrimDotsBefore(raw);
    var r := TrimDots(front);
    assert forall i :: 0 <= i < |r| ==> Lower(r)[i] == LowerChar(r[i]);
    assert r != [] ==> r[0] == front[0];
  }

  lemma {:induction false} BaseLoads(base: string)
    requires BaseDomain(base)
    ensures ConfiguredBase(base) == base
  {
    assert TrimDotsBefore(base) == base && TrimDots(base) == base;
    assert forall i :: 0 <= i < |base| ==> Lower(base)[i] == LowerChar(base[i]);
  }

  lemma NameEndsWithBase(base: string, stem: string)
    ensures var name := stem + "." + base; EndsWith(name, "." + base) && Slug(base, name) == stem
  {
    var name, end := stem + "." + base, "." + base;
    assert name == stem + end;
    assert name[|name| - |end|..] == end && name[..|name| - |end|] == stem;
  }

  lemma LabelHasNoDot(base: string, stem: string)
    requires Label(stem)
    ensures Slug(base, stem) == stem
  {
    var end := "." + base;
    assert forall k :: 0 <= k < |stem| ==> LabelChar(stem[k]) && stem[k] != '.';
    var k := |stem| - |end|;
    assert k >= 0 ==> stem[k..] != end by {
      if k >= 0 {
        assert stem[k..][0] == stem[k];
      }
    }
  }

  lemma SlugIs(base: string, core: string, stem: string)
    requires Label(stem)
    ensures Slug(base, core) == stem <==> core == stem || core == stem + "." + base
  {
    NameEndsWithBase(base, stem);
    LabelHasNoDot(base, stem);
    var end := "." + base;
    if EndsWith(core, end) {
      assert core == core[..|core| - |end|] + end;
      assert stem + end == stem + "." + base;
    }
  }

  lemma NormalizesByCore(base: string, value: string, stem: string)
    requires Label(stem)
    ensures NormalizeHostname(base, value) == Some(stem + "." + base)
       <==> Core(value) == stem || Core(value) == stem + "." + base
  {
    var slug := Slug(base, Core(value));
    SlugIs(base, Core(value), stem);
    hide Core;
    hide Slug;
    if slug + "." + base == stem + "." + base {
      SameSlug(slug, stem, base);
    }
  }

  /** Exactly the inputs that mean label `stem`: the label itself or its fully qualified name, in any case, with
      any surrounding white space and trailing dots - if `stem` is one to 63 ASCII letters, digits and hyphens, all
      lower case and with no hyphen at either end. */
  lemma NormalizesTo(base: string, value: string, stem: string)
    ensures NormalizeHostname(base, value) == Some(stem + "." + base)
       <==> && 1 <= |stem| <= 63 && stem[0] as int != 0x2D && stem[|stem| - 1] as int != 0x2D
            && (forall i :: 0 <= i < |stem| ==> var n := stem[i] as int; 0x61 <= n <= 0x7A || 0x30 <= n <= 0x39 || n == 0x2D)
            && (Lower(TrimDots(Trim(value))) == stem || Lower(TrimDots(Trim(value))) == stem + "." + base)
  {
    hide Slug;
    hide Lower;
    hide TrimDots;
    hide Trim;
    var slug := Slug(base, Core(value));
    if Label(stem) {
      NormalizesByCore(base, value, stem);
    } else if slug + "." + base == stem + "." + base {
      SameSlug(slug, stem, base);
    }
  }

  lemma SameSlug(a: string, b: string, base: string)
    requires a + "." + base == b + "." + base
    ensures a == b
  {
    assert |a| == |b|;
    assert (a + "." + base)[..|a|] == a && (b + "." + base)[..|b|] == b;
  }

  /** Only names under the base domain come out, with a valid label in front. */
  lemma NormalizedForm(base: string, value: string) returns (stem: string)
    requires NormalizeHostname(base, value).Some?
    ensures Label(stem) && NormalizeHostname(base, value) == Some(stem + "." + base)
  {
    stem := Slug(base, Core(value));
  }

  lemma {:induction false} LabelIsLower(stem: string)
    requires Label(stem)
    ensures Lower(stem) == stem
  {
    assert forall i :: 0 <= i < |stem| ==> LabelChar(stem[i]);
  }

  lemma {:induction false} LowerName(base: string, stem: string)
    requires BaseDomain(base) && Label(stem)
    ensures Lower(stem + "." + base) == stem + "." + base
  {
    assert forall i :: 0 <= i < |stem| ==> LabelChar(stem[i]);
    var name := stem + "." + base;
    assert forall i :: 0 <= i < |name| ==> LowerChar(name[i]) == name[i];
  }

  predicate AllSpace(s: string) {
    forall i :: 0 <= i < |s| ==> IsSpace(s[i])
  }

  lemma {:induction false} TrimEndOfSpaces(s: string, t: string)
    requires AllSpace(t) && (s == [] || !IsSpace(s[|s| - 1]))
    ensures TrimEnd(s + t) == s
    decreases |t|
  {
    if t == [] {
      assert s + t == s;
    } else {
      assert (s + t)[..|s + t| - 1] == s + t[..|t| - 1];
      assert IsSpace(t[|t| - 1]);
      TrimEndOfSpaces(s, t[..|t| - 1]);
    }
  }

  lemma {:induction false} TrimDotsOfDots(s: string, n: nat)
    requires s == [] || s[|s| - 1] != '.'
    ensures TrimDots(s + Dots(n)) == s
    decreases n
  {
    if n == 0 {
      assert s + Dots(n) == s;
    } else {
      assert Dots(n) == Dots(n - 1) + ".";
      assert (s + Dots(n))[..|s + Dots(n)| - 1] == s + Dots(n - 1);
      TrimDotsOfDots(s, n - 1);
    }
  }

  function Dots(n: nat): (r: string)
    ensures |r| == n && forall i :: 0 <= i < n ==> r[i] == '.'
  {
    if n == 0 then "" else "." + Dots(n - 1)
  }

  lemma {:induction false} TrimStartOfSpaces(s: string, t: string)
    requires AllSpace(s) && (t == [] || !IsSpace(t[0]))
    ensures TrimStart(s + t) == t
    decreases |s|
  {
    if s == [] {
      assert s + t == t;
    } else {
      assert (s + t)[0] == s[0] && IsSpace(s[0]);
      assert (s + t)[1..] == s[1..] + t;
      TrimStartOfSpaces(s[1..], t);
    }
  }

  /** The core of a decorated name: white space around it and dots after it do not matter, nor does case. */
  lemma {:induction false} DecoratedCore(before: string, name: string, dots: nat, after: string)
    requires AllSpace(before) && AllSpace(after)
    requires name != [] && !IsSpace(name[0]) && !IsSpace(name[|name| - 1]) && name[|name| - 1] != '.'
    ensures Core(before + (name + Dots(dots)) + after) == Lower(name)
  {
    var dotted := name + Dots(dots);
    assert !IsSpace('.');
    assert dotted[0] == name[0];
    assert before + dotted + after == before + (dotted + after);
    TrimStartOfSpaces(before, dotted + after);
    TrimEndOfSpaces(dotted, after);
    TrimDotsOfDots(name, dots);
  }

  /** `name` is `full` with some letters in upper case. */
  predicate SameButCase(name: string, full: string) {
    |name| == |full| && forall i :: 0 <= i < |name| ==> name[i] == full[i] || ('A' <= name[i] <= 'Z' && name[i] as int + 32 == full[i] as int)
  }

  lemma {:induction false} CaseIsLowered(name: string, full: string)
    requires SameButCase(name, full) && Lower(full) == full
    ensures Lower(name) == full
  {
    forall i | 0 <= i < |name| ensures Lower(name)[i] == full[i] {
      assert Lower(full)[i] == LowerChar(full[i]) && Lower(name)[i] == LowerChar(name[i]);
    }
  }

  lemma {:induction false} LoweredFormsAgree(base: string, stem: string, name: string, before: string, dots: nat, after: string)
    requires BaseDomain(base) && Label(stem) && AllSpace(before) && AllSpace(after)
    requires Lower(name) == stem || (Lower(name) == stem + "." + base && base != [] && !IsSpace(base[|base| - 1]))
    ensures NormalizeHostname(base, before + (name + Dots(dots)) + after) == Some(stem + "." + base)
  {
    assert Lower(name)[0] == stem[0] && LabelChar(stem[0]) && LabelChar(stem[|stem| - 1]);
    assert LowerChar(name[0]) == Lower(name)[0];
    assert LowerChar(name[|name| - 1]) == Lower(name)[|name| - 1];
    if Lower(name) == stem + "." + base {
      assert Lower(name)[|name| - 1] == base[|base| - 1];
    }
    DecoratedCore(before, name, dots, after);
    NormalizesByCore(base, before + (name + Dots(dots)) + after, stem);
  }

  /** All ways to write a name agree: any case of the bare label and any case of its fully qualified form,
      with white space around and dots behind, normalise to the same name. */
  lemma {:induction false} AllFormsAgree(base: string, stem: string, name: string, before: string, dots: nat, after: string)
    requires BaseDomain(base) && Label(stem) && AllSpace(before) && AllSpace(after)
    requires SameButCase(name, stem) || (SameButCase(name, stem + "." + base) && base != [] && !IsSpace(base[|base| - 1]))
    ensures NormalizeHostname(base, before + (name + Dots(dots)) + after) == Some(stem + "." + base)
  {
    hide SameButCase;
    hide NormalizeHostname;
    hide Label;
    hide Dots;
    LabelIsLower(stem);
    LowerName(base, stem);
    CaseIsLowered(name, if SameButCase(name, stem) then stem else stem + "." + base);
    LoweredFormsAgree(base, stem, name, before, dots, after);
  }

  /** The base domains for which normalising again changes nothing: those that do not end in white space,
      and those that are nothing but white space. */
  predicate CleanBase(base: string) {
    AllSpace(base) || !IsSpace(base[|base| - 1])
  }

  lemma LabelCharIsVisible(c: char)
    requires LabelChar(c)
    ensures !IsSpace(c) && c != '.'
  {
  }

  lemma {:induction false} VisibleStart(s: string)
    requires s != [] && !IsSpace(s[0])
    ensures TrimStart(s) == s
  {
  }

  lemma NameStarts(base: string, stem: string)
    requires Label(stem)
    ensures var name := stem + "." + base; TrimStart(name) == name && !IsSpace(stem[|stem| - 1]) && stem[|stem| - 1] != '.'
  {
    LabelCharIsVisible(stem[0]);
    LabelCharIsVisible(stem[|stem| - 1]);
    hide IsSpace;
    hide LabelChar;
    assert (stem + "." + base)[0] == stem[0];
    VisibleStart(stem + "." + base);
  }

  lemma CoreUnderBlank(base: string, stem: string)
    requires Label(stem) && AllSpace(base)
    ensures Core(stem + "." + base) == stem
  {
    NameStarts(base, stem);
    TrimEndOfSpaces(stem + ".", base);
    TrimDotsOfDots(stem, 1);
    assert Dots(1) == ".";
    LabelIsLower(stem);
  }

  lemma CoreUnderClean(base: string, stem: string)
    requires BaseDomain(base) && Label(stem) && base != [] && !IsSpace(base[|base| - 1])
    ensures Core(stem + "." + base) == stem + "." + base
  {
    NameStarts(base, stem);
    var name := stem + "." + base;
    assert name[|name| - 1] == base[|base| - 1];
    LowerName(base, stem);
  }

  lemma CoreUnderOther(base: string, stem: string)
    requires BaseDomain(base) && Label(stem) && !AllSpace(base) && IsSpace(base[|base| - 1])
    ensures |stem| < |Core(stem + "." + base)| < |stem + "." + base|
  {
    NameStarts(base, stem);
    TrimsInsideBase(stem, base);
  }

  lemma {:induction false} TrimEndKeeps(s: string, i: nat)
    requires i < |s| && !IsSpace(s[i])
    ensures |TrimEnd(s)| > i
    decreases |s|
  {
    if IsSpace(s[|s| - 1]) {
      TrimEndKeeps(s[..|s| - 1], i);
    }
  }

  lemma {:induction false} TrimDotsKeeps(s: string, i: nat)
    requires i < |s| && s[i] != '.'
    ensures |TrimDots(s)| > i
    decreases |s|
  {
    if s[|s| - 1] == '.' {
      TrimDotsKeeps(s[..|s| - 1], i);
    }
  }

  /** Trimming a name whose base ends in white space, but is not all of it, shortens the base but leaves
      its first character. */
  lemma TrimsInsideBase(stem: string, base: string)
    requires BaseDomain(base) && !AllSpace(base) && IsSpace(base[|base| - 1])
    ensures var name := stem + "." + base; |stem| + 1 < |TrimDots(TrimEnd(name))| < |name|
  {
    var name := stem + "." + base;
    var i :| 0 <= i < |base| && !IsSpace(base[i]);
    assert name[|stem| + 1 + i] == base[i];
    TrimEndKeeps(name, |stem| + 1 + i);
    var t := TrimEnd(name);
    assert t[|stem| + 1] == name[|stem| + 1] == base[0];
    TrimDotsKeeps(t, |stem| + 1);
    assert name[|name| - 1] == base[|base| - 1];
  }

  /** Idempotence, exactly: normalising a normalised name gives it back if and only if the configured base
      domain does not end in white space or is nothing but white space. */
  lemma IdempotentIff(base: string, value: string, name: string)
    requires BaseDomain(base) && NormalizeHostname(base, value) == Some(name)
    ensures NormalizeHostname(base, name) == Some(name) <==> CleanBase(base)
  {
    var stem := NormalizedForm(base, value);
    NormalizesByCore(base, name, stem);
    if AllSpace(base) {
      CoreUnderBlank(base, stem);
    } else if !IsSpace(base[|base| - 1]) {
      CoreUnderClean(base, stem);
    } else {
      CoreUnderOther(base, stem);
    }
  }

  // ---------------------------------------------------------------- looking names up

  /** The web tunnels that are enabled, as (identifier, stored name) pairs; the unique index on the lower
      case of the name allows no two of one name. */
  type Rows = map<Uuid, string>

  ghost predicate Unique(rows: Rows) {
    forall i, j :: i in rows && j in rows && Lower(rows[i]) == Lower(rows[j]) ==> i == j
  }

  predicate Hit(stored: string, asked: string) {
    Lower(stored) == Lower(TrimDots(asked))
  }

  /** `get_by_hostname`: the one row found, if any. */
  ghost function GetByHostname(rows: Rows, asked: string): (r: Option<Uuid>)
    ensures r.Some? ==> r.value in rows && Hit(rows[r.value], asked)
    ensures r == None ==> forall i :: i in rows ==> !Hit(rows[i], asked)
  {
    if exists i :: i in rows && Hit(rows[i], asked) then
      var i :| i in rows && Hit(rows[i], asked);
      Some(i)
    else None
  }

  /** `hostname_is_enabled`, which the TLS ask uses: the number of such rows is one. */
  predicate HostnameIsEnabled(rows: Rows, asked: string) {
    |set i | i in rows && Hit(rows[i], asked)| == 1
  }

  function BeforeColon(s: string): (r: string)
    ensures |r| <= |s| && r == s[..|r|] && (|r| < |s| ==> s[|r|] == ':') && ':' !in r
  {
    if s == [] || s[0] == ':' then [] else [s[0]] + BeforeColon(s[1..])
  }

  /** The host-name path of a proxied request. */
  ghost function Route(rows: Rows, host: string): Option<Uuid> {
    GetByHostname(rows, Lower(BeforeColon(host)))
  }

  lemma {:induction false} LowerInit(s: string)
    requires s != []
    ensures Lower(s)[..|s| - 1] == Lower(s[..|s| - 1])
    ensures Lower(s)[|s| - 1] == '.' <==> s[|s| - 1] == '.'
  {
    assert Lower(s)[|s| - 1] == LowerChar(s[|s| - 1]);
  }

  lemma {:induction false} TrimDotsLower(s: string)
    ensures TrimDots(Lower(s)) == Lower(TrimDots(s))
    decreases |s|
  {
    hide LowerChar;
    if s != [] {
      LowerInit(s);
      if s[|s| - 1] == '.' {
        TrimDotsLower(s[..|s| - 1]);
      }
    }
  }

  lemma {:induction false} LowerTwice(s: string)
    ensures Lower(Lower(s)) == Lower(s)
  {
  }

  lemma {:induction false} LowerKeepsHit(stored: string, asked: string)
    ensures Hit(stored, Lower(asked)) == Hit(stored, asked)
  {
    TrimDotsLower(asked);
    LowerTwice(TrimDots(asked));
  }

  lemma OneRow(rows: Rows, i: Uuid, j: Uuid, asked: string)
    requires Unique(rows) && i in rows && j in rows && Hit(rows[i], asked) && Hit(rows[j], asked)
    ensures i == j
  {
  }

  /** The ask and the lookup agree on every name, and the row found is the only one with that name. */
  lemma AskIsLookup(rows: Rows, asked: string)
    requires Unique(rows)
    ensures HostnameIsEnabled(rows, asked) <==> GetByHostname(rows, asked).Some?
    ensures forall i :: i in rows && Hit(rows[i], asked) ==> GetByHostname(rows, asked) == Some(i)
  {
    var hits := set i | i in rows && Hit(rows[i], asked);
    var r := GetByHostname(rows, asked);
    if r.Some? {
      forall i | i in hits ensures i == r.value {
        OneRow(rows, i, r.value, asked);
      }
      assert hits == {r.value};
    } else {
      assert hits == {};
    }
  }

  /** Routing a stored name: a request for any variant of it - any case, any number of dots behind, any
      port - finds exactly that tunnel, provided the base domain is not empty and has no colon. */
  lemma {:induction false} RoutingFindsTheTunnel(base: string, rows: Rows, id: Uuid, stem: string, host: string, dots: nat, port: string)
    requires Unique(rows) && BaseDomain(base) && Label(stem) && id in rows && rows[id] == stem + "." + base
    requires Lower(host) == rows[id] && (port == "" || port[0] == ':')
    requires base != "" && ':' !in base
    ensures Route(rows, host + Dots(dots) + port) == Some(id)
  {
    var asked := host + Dots(dots);
    NoColon(host, stem, base);
    BeforeColonOf(asked, port);
    assert Lower(host)[|host| - 1] == base[|base| - 1];
    assert host[|host| - 1] != '.';
    TrimDotsOfDots(host, dots);
    LowerName(base, stem);
    LowerKeepsHit(rows[id], asked);
    assert Hit(rows[id], Lower(asked));
    AskIsLookup(rows, Lower(asked));
  }

  lemma {:induction false} NoColon(host: string, stem: string, base: string)
    requires Label(stem) && Lower(host) == stem + "." + base && ':' !in base
    ensures ':' !in host
  {
    forall i | 0 <= i < |host| ensures host[i] != ':' {
      assert Lower(host)[i] == LowerChar(host[i]);
      if i < |stem| {
        assert LabelChar(stem[i]);
      } else if i > |stem| {
        assert Lower(host)[i] == base[i - |stem| - 1];
      }
    }
  }

  lemma {:induction false} BeforeColonOf(s: string, rest: string)
    requires ':' !in s && (rest == "" || rest[0] == ':')
    ensures BeforeColon(s + rest) == s
    decreases |s|
  {
    if s == [] {
      assert s + rest == rest;
    } else {
      assert (s + rest)[1..] == s[1..] + rest && (s + rest)[0] == s[0];
      BeforeColonOf(s[1..], rest);
    }
  }

  /** With an empty base domain no stored name is ever found: its dot is trimmed from every question. */
  lemma EmptyBaseNeverRoutes(rows: Rows, id: Uuid, stem: string, host: string)
    requires Label(stem) && id in rows && rows[id] == stem + "." + ""
    ensures Route(rows, host) != Some(id) && !Hit(rows[id], host)
  {
    var asked := Lower(BeforeColon(host));
    assert Lower(rows[id])[|stem|] == '.';
    DotNeverHit(rows[id], asked);
    DotNeverHit(rows[id], host);
  }

  /** Nor is a name with a colon, since requests are routed by what precedes the first colon. */
  lemma ColonNeverRoutes(rows: Rows, id: Uuid, host: string)
    requires id in rows && ':' in rows[id]
    ensures Route(rows, host) != Some(id)
  {
    var asked := Lower(BeforeColon(host));
    var i :| 0 <= i < |rows[id]| && rows[id][i] == ':';
    assert Lower(rows[id])[i] == ':';
    var t := TrimDots(asked);
    assert forall k :: 0 <= k < |t| ==> t[k] == LowerChar(BeforeColon(host)[k]) != ':';
    assert forall k :: 0 <= k < |t| ==> Lower(t)[k] == LowerChar(t[k]) != ':';
  }

  lemma UnroutableBase(base: string, rows: Rows, id: Uuid, stem: string, host: string)
    requires Label(stem) && id in rows && rows[id] == stem + "." + base && (base == "" || ':' in base)
    ensures Route(rows, host) != Some(id)
  {
    hide Route;
    if base == "" {
      EmptyBaseNeverRoutes(rows, id, stem, host);
    } else {
      ColonsComeFromTheBase(base, stem);
      ColonNeverRoutes(rows, id, host);
    }
  }

  /** Routing a stored name, exactly: some request reaches the tunnel if and only if the base domain is not
      empty and has no colon, and then every variant of its name does. */
  lemma {:induction false} RoutableIff(base: string, rows: Rows, id: Uuid, stem: string)
    requires Unique(rows) && BaseDomain(base) && Label(stem) && id in rows && rows[id] == stem + "." + base
    ensures (exists host :: Route(rows, host) == Some(id)) <==> base != "" && ':' !in base
  {
    hide Route;
    if base == "" || ':' in base {
      forall host ensures Route(rows, host) != Some(id) {
        UnroutableBase(base, rows, id, stem, host);
      }
    } else {
      LowerName(base, stem);
      RoutingFindsTheTunnel(base, rows, id, stem, rows[id], 0, "");
      assert rows[id] + Dots(0) + "" == rows[id];
    }
  }

  lemma DotNeverHit(stored: string, asked: string)
    requires stored != [] && stored[|stored| - 1] == '.'
    ensures !Hit(stored, asked)
  {
    var t := TrimDots(asked);
    assert Lower(stored)[|stored| - 1] == '.';
    assert t == [] || Lower(t)[|t| - 1] == LowerChar(t[|t| - 1]) != '.';
  }

  /** The TLS ask against routing, exactly, for every table: a name is routed if and only if the ask accepts
      what precedes its first colon. */
  lemma {:induction false} RouteIsAskOfPrefix(rows: Rows, asked: string)
    requires Unique(rows)
    ensures Route(rows, asked).Some? <==> HostnameIsEnabled(rows, BeforeColon(asked))
  {
    AskIsLookup(rows, BeforeColon(asked));
    SameLookup(rows, BeforeColon(asked));
  }

  /** So the two agree on every name without a colon. On one with a colon they disagree exactly when the ask
      accepts the whole name or its prefix but not both; and it can accept the whole only if the base domain
      has a colon, since stored names have no other. */
  lemma {:induction false} AskAgainstRoute(rows: Rows, base: string, asked: string)
    requires Unique(rows) && forall i :: i in rows ==> exists stem :: Label(stem) && rows[i] == stem + "." + base
    ensures (HostnameIsEnabled(rows, asked) <==> Route(rows, asked).Some?)
       <==> if ':' in base then !HostnameIsEnabled(rows, asked)
            else ':' !in asked || !HostnameIsEnabled(rows, BeforeColon(asked))
  {
    RouteIsAskOfPrefix(rows, asked);
    forall i | i in rows ensures ':' in rows[i] <==> ':' in base {
      var stem :| Label(stem) && rows[i] == stem + "." + base;
      ColonsComeFromTheBase(base, stem);
    }
    if ':' in base {
      forall i | i in rows ensures !Hit(rows[i], BeforeColon(asked)) {
        NoColonNeverHit(rows[i], BeforeColon(asked));
      }
    } else if ':' in asked {
      forall i | i in rows ensures !Hit(rows[i], asked) {
        ColonNeverHit(rows[i], asked);
      }
    } else {
      BeforeColonOf(asked, "");
      assert asked + "" == asked;
    }
  }

  lemma NoColonNeverHit(stored: string, asked: string)
    requires ':' !in asked && ':' in stored
    ensures !Hit(stored, asked)
  {
    var i :| 0 <= i < |stored| && stored[i] == ':';
    assert Lower(stored)[i] == ':';
    var t := TrimDots(asked);
    assert forall k :: 0 <= k < |t| ==> t[k] == asked[k] && Lower(t)[k] == LowerChar(t[k]) != ':';
  }

  /** A stored name has a colon exactly when the base domain has one. */
  lemma ColonsComeFromTheBase(base: string, stem: string)
    requires Label(stem)
    ensures ':' in stem + "." + base <==> ':' in base
  {
    var name := stem + "." + base;
    forall i | 0 <= i < |stem| ensures stem[i] != ':' {
      assert LabelChar(stem[i]);
    }
    if ':' in name {
      var i :| 0 <= i < |name| && name[i] == ':';
      assert base[i - |stem| - 1] == ':';
    }
    if ':' in base {
      var i :| 0 <= i < |base| && base[i] == ':';
      assert name[|stem| + 1 + i] == ':';
    }
  }

  lemma {:induction false} SameLookup(rows: Rows, asked: string)
    ensures GetByHostname(rows, Lower(asked)).Some? <==> GetByHostname(rows, asked).Some?
  {
    forall i | i in rows ensures Hit(rows[i], Lower(asked)) == Hit(rows[i], asked) {
      LowerKeepsHit(rows[i], asked);
    }
  }

  lemma ColonNeverHit(stored: string, asked: string)
    requires ':' in asked && ':' !in stored
    ensures !Hit(stored, asked)
  {
    var i :| 0 <= i < |asked| && asked[i] == ':';
    TrimDotsKeeps(asked, i);
    var t := TrimDots(asked);
    assert t[i] == ':' && Lower(t)[i] == ':';
    assert forall k :: 0 <= k < |stored| ==> Lower(stored)[k] == LowerChar(stored[k]) && stored[k] != ':';
  }
}
