/** The dashboard's side navigation: the store's initials in the logo tile and which of the
    seven links is highlighted for the current path. */
module DashboardNav {
  import opened Schema

  /** `s.split(sep)`: the pieces between separators, empty pieces included. */
  function Split(s: string, sep: char): (words: seq<string>)
    ensures |words| >= 1
    ensures forall i :: 0 <= i < |words| ==> sep !in words[i]
  {
    if s == [] then [[]]
    else
      var rest := Split(s[1..], sep);
      if s[0] == sep then [[]] + rest else [[s[0]] + rest[0]] + rest[1..]
  }

  /** Joining the pieces back with the separator gives the original string. */
  lemma {:induction false} SplitJoin(s: string, sep: char)
    ensures Join(Split(s, sep), sep) == s
  {
    if s != [] {
      SplitJoin(s[1..], sep);
      var rest := Split(s[1..], sep);
      if s[0] != sep {
        assert Join(rest, sep) == rest[0] + (if |rest| == 1 then [] else [sep] + Join(rest[1..], sep));
      }
    }
  }

  function Join(words: seq<string>, sep: char): string
    requires |words| >= 1
  {
    if |words| == 1 then words[0] else words[0] + [sep] + Join(words[1..], sep)
  }

  /** `word[0]` as a string: its first character, or nothing for an empty word (whose
      `undefined` joins as the empty string). */
  function FirstLetter(word: string): string {
    if word == [] then [] else [word[0]]
  }

  /** The words that are not empty, in order: those that contribute a letter. */
  function NonEmptyWords(words: seq<string>): (r: seq<string>)
    ensures |r| <= |words|
    ensures forall i :: 0 <= i < |r| ==> r[i] != []
    ensures forall w :: w in r <==> w in words && w != []
  {
    if words == [] then []
    else
      assert words == [words[0]] + words[1..];
      if words[0] == [] then NonEmptyWords(words[1..]) else [words[0]] + NonEmptyWords(words[1..])
  }

  /** `words.map(word => word[0]).join("")`: the leading character of each non-empty word,
      in order; an empty word adds nothing. */
  function FirstLetters(words: seq<string>): (r: string)
    ensures |r| == |NonEmptyWords(words)|
    ensures forall i :: 0 <= i < |r| ==> r[i] == NonEmptyWords(words)[i][0]
  {
    if words == [] then [] else FirstLetter(words[0]) + FirstLetters(words[1..])
  }

  /** `toUpperCase` on the ASCII letters. */
  function Upper(c: char): char {
    if 'a' <= c <= 'z' then (c as int - 32) as char else c
  }

  function UpperAll(s: string): (r: string)
    ensures |r| == |s|
    ensures forall i :: 0 <= i < |s| ==> r[i] == Upper(s[i])
  {
    if s == [] then [] else [Upper(s[0])] + UpperAll(s[1..])
  }

  /** The logo tile: the upper-cased first letters of the space-separated words of the store
      name, at most two of them. */
  function Initials(storeName: string): (r: string)
    ensures var ws := NonEmptyWords(Split(storeName, ' '));
      && |r| == (if |ws| <= 2 then |ws| else 2)
      && forall i :: 0 <= i < |r| ==> r[i] == Upper(ws[i][0])
  {
    var letters := UpperAll(FirstLetters(Split(storeName, ' ')));
    if |letters| <= 2 then letters else letters[..2]
  }

  /** Spaces in front of the name add no letter. */
  lemma LeadingSpaceIgnored(storeName: string)
    ensures Initials(" " + storeName) == Initials(storeName)
  {
    assert (" " + storeName)[1..] == storeName;
    assert NonEmptyWords(Split(" " + storeName, ' ')) == NonEmptyWords(Split(storeName, ' ')) by {
      assert Split(" " + storeName, ' ') == [[]] + Split(storeName, ' ');
      assert ([[]] + Split(storeName, ' '))[1..] == Split(storeName, ' ');
    }
  }

  /** A two-word name gives the upper-cased first letter of each word. */
  lemma TwoWordInitials(first: string, second: string)
    requires first != [] && second != [] && ' ' !in first && ' ' !in second
    ensures Initials(first + " " + second) == [Upper(first[0]), Upper(second[0])]
  {
    SplitNoSep(second, ' ');
    SplitNoSep(first, ' ');
    SplitAppend(first, second, ' ');
    assert first + " " + second == first + [' '] + second;
    assert Split(first + " " + second, ' ') == [first, second];
    assert FirstLetters([first, second]) == [first[0], second[0]] by {
      assert [first, second][1..] == [second];
    }
  }

  /** A third word adds no letter: the initials stop at two. */
  lemma ThreeWordInitials(first: string, second: string, third: string)
    requires first != [] && second != [] && ' ' !in first && ' ' !in second && ' ' !in third
    ensures Initials(first + " " + second + " " + third) == [Upper(first[0]), Upper(second[0])]
  {
    SplitNoSep(third, ' ');
    SplitAppend(second, third, ' ');
    SplitAppend(first, second + [' '] + third, ' ');
    assert first + " " + second + " " + third == first + [' '] + (second + [' '] + third);
    var words := Split(first + " " + second + " " + third, ' ');
    assert words == [first, second, third];
    assert NonEmptyWords(words)[..2] == [first, second] by {
      assert words[1..] == [second, third];
    }
  }

  lemma {:induction false} SplitNoSep(s: string, sep: char)
    requires sep !in s
    ensures Split(s, sep) == [s]
  {
    if s != [] {
      assert s[0] in s && s == [s[0]] + s[1..];
      SplitNoSep(s[1..], sep);
    }
  }

  lemma {:induction false} SplitAppend(a: string, b: string, sep: char)
    requires sep !in a
    ensures Split(a + [sep] + b, sep) == [a] + Split(b, sep)
  {
    if a == [] {
      assert a + [sep] + b == [sep] + b;
      assert ([sep] + b)[1..] == b;
    } else {
      assert (a + [sep] + b)[1..] == a[1..] + [sep] + b;
      assert a[0] in a && a == [a[0]] + a[1..];
      SplitAppend(a[1..], b, sep);
    }
  }

  datatype NavItem = NavItem(name: string, href: string)

  const Navigation: seq<NavItem> := [
    NavItem("Dashboard", "/dashboard"),
    NavItem("Inventory", "/inventory"),
    NavItem("POS", "/pos"),
    NavItem("Sales", "/sales/dashboard"),
    NavItem("Analytics", "/analytics"),
    NavItem("Customers", "/customers"),
    NavItem("Settings", "/settings")
  ]

  predicate StartsWith(s: string, prefix: string) {
    |prefix| <= |s| && s[..|prefix|] == prefix
  }

  /** A link is highlighted on its own path and on every path below it; without a path
      nothing is. */
  predicate IsActive(pathname: Option<string>, href: string) {
    pathname.Some? && (pathname.value == href || StartsWith(pathname.value, href + "/"))
  }

  /** Before the path is known no link is highlighted. */
  lemma NoPathNoLink(href: string)
    ensures !IsActive(None, href)
  {
  }

  /** A path that merely begins with a link's path, without a slash after it, does not
      highlight the link. */
  lemma SiblingPathInactive(href: string, suffix: string)
    requires suffix != [] && suffix[0] != '/'
    ensures !IsActive(Some(href + suffix), href)
  {
    assert (href + suffix)[|href|] == suffix[0];
  }

  /** The sales list at "/sales" highlights no link: the Sales link points below it. */
  lemma SalesListHighlightsNothing(i: nat)
    requires i < |Navigation|
    ensures !IsActive(Some("/sales"), Navigation[i].href)
  {
    var href := Navigation[i].href;
    if i != 3 {
      DifferAt(href, "/sales", if href[1] != 's' then 1 else 2);
    }
  }

  /** A path below a link's path highlights it. */
  lemma DescendantActive(href: string, below: string)
    ensures IsActive(Some(href + "/" + below), href)
  {
    assert (href + "/" + below)[..|href + "/"|] == href + "/";
  }

  /** Neither path is the other or lies below it. */
  predicate Unrelated(a: string, b: string) {
    a != b && !StartsWith(a, b + "/") && !StartsWith(b, a + "/")
  }

  /** Two prefixes of one path: the shorter is a prefix of the longer. */
  lemma PrefixesOfOnePath(p: string, x: string, y: string)
    requires StartsWith(p, x) && StartsWith(p, y) && |x| <= |y|
    ensures StartsWith(y, x)
  {
    assert y[..|x|] == p[..|y|][..|x|] == p[..|x|];
  }

  /** No path highlights two unrelated links. */
  lemma UnrelatedNotBothActive(pathname: Option<string>, a: string, b: string)
    requires Unrelated(a, b)
    ensures !(IsActive(pathname, a) && IsActive(pathname, b))
  {
    if IsActive(pathname, a) && IsActive(pathname, b) {
      var p := pathname.value;
      if p != a && p != b {
        if |a| <= |b| {
          SlashPrefix(p, a, b);
        } else {
          SlashPrefix(p, b, a);
        }
      }
    }
  }

  /** A path below two links, the first no longer than the second: they are the same
      link or the second lies below the first. */
  lemma SlashPrefix(p: string, a: string, b: string)
    requires StartsWith(p, a + "/") && StartsWith(p, b + "/") && |a| <= |b|
    ensures a == b || StartsWith(b, a + "/")
  {
    PrefixesOfOnePath(p, a + "/", b + "/");
    if |a| == |b| {
      assert a == (a + "/")[..|a|] && b == (b + "/")[..|b|];
    } else {
      assert b[..|a| + 1] == (b + "/")[..|a| + 1];
    }
  }

  /** Paths that differ at a position both have are unrelated. */
  lemma DifferAt(a: string, b: string, m: nat)
    requires m < |a| && m < |b| && a[m] != b[m]
    ensures Unrelated(a, b)
  {
  }

  /** The seven link paths are pairwise unrelated. */
  lemma NavigationUnrelated(i: nat, j: nat)
    requires i < |Navigation| && j < |Navigation| && i != j
    ensures Unrelated(Navigation[i].href, Navigation[j].href)
  {
    var a, b := Navigation[i].href, Navigation[j].href;
    if a[1] != b[1] {
      DifferAt(a, b, 1);
    } else {
      DifferAt(a, b, 2);
    }
  }

  /** Whatever the path, at most one link is highlighted. */
  lemma AtMostOneActive(pathname: Option<string>, i: nat, j: nat)
    requires i < |Navigation| && j < |Navigation| && i != j
    ensures !(IsActive(pathname, Navigation[i].href) && IsActive(pathname, Navigation[j].href))
  {
    NavigationUnrelated(i, j);
    UnrelatedNotBothActive(pathname, Navigation[i].href, Navigation[j].href);
  }
}
