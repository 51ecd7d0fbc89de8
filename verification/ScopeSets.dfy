/**
 OAuth scope sets and their text form: a space separated list, sorted.
 A scope set is the set of its scope names.
 */
module ScopeSets {
  import opened Basics
  import opened Ordering

  type Scope = string

  predicate IsScopeChar(c: char) {
    'a' <= c <= 'z' || '0' <= c <= '9' || c in {'_', '.', ':', '/', '-'}
  }

  /** A scope name matches `^[a-z0-9_.:/-]+$`. */
  predicate ValidScope(scope: Scope) {
    scope != "" && forall c :: c in scope ==> IsScopeChar(c)
  }

  /** The characters the `\s` class of ECMAScript matches. */
  predicate IsSpace(c: char) {
    c in {' ', '\t', '\n', '\r', '\U{0B}', '\U{0C}', '\U{A0}', '\U{1680}', '\U{2028}', '\U{2029}', '\U{202F}',
          '\U{205F}', '\U{3000}', '\U{FEFF}'}
    || '\U{2000}' <= c <= '\U{200A}'
  }

  /** Length of the leading run of non-space characters. */
  function WordLength(text: string): (n: nat)
    ensures n <= |text|
    ensures forall i :: 0 <= i < n ==> !IsSpace(text[i])
    ensures n < |text| ==> IsSpace(text[n])
  {
    if text == "" || IsSpace(text[0]) then 0 else 1 + WordLength(text[1..])
  }

  /** `text.split(/\s+/).filter(Boolean)` */
  function Words(text: string): (words: seq<string>)
    ensures forall w :: w in words ==> w != "" && forall c :: c in w ==> !IsSpace(c)
    decreases |text|
  {
    if text == "" then []
    else if IsSpace(text[0]) then Words(text[1..])
    else var n := WordLength(text); [text[..n]] + Words(text[n..])
  }

  function Join(words: seq<string>): string {
    if words == [] then "" else if |words| == 1 then words[0] else words[0] + " " + Join(words[1..])
  }

  /** `ScopeSet.fromString`; None where the constructor throws. */
  function FromString(text: string): Option<set<Scope>> {
    var words := Words(text);
    if forall w :: w in words ==> ValidScope(w) then Some(set w | w in words) else None
  }

  predicate Less(a: string, b: string) {
    b != "" && (a == "" || a[0] < b[0] || (a[0] == b[0] && Less(a[1..], b[1..])))
  }

  lemma {:induction false} LessTransitive(a: string, b: string, c: string)
    requires Less(a, b) && Less(b, c)
    ensures Less(a, c)
  {
    if a != "" && a[0] == b[0] && b[0] == c[0] {
      LessTransitive(a[1..], b[1..], c[1..]);
    }
  }

  lemma {:induction false} LessTotal(a: string, b: string)
    ensures a != b ==> Less(a, b) || Less(b, a)
    ensures !Less(a, a)
  {
    if a != "" && b != "" {
      assert a == [a[0]] + a[1..] && b == [b[0]] + b[1..];
      LessTotal(a[1..], b[1..]);
    } else if a != "" {
      LessTotal(a[1..], b);
    }
  }

  lemma LessIsStrictTotal()
    ensures StrictTotal(Less)
  {
    forall a, b, c | Less(a, b) && Less(b, c) ensures Less(a, c) { LessTransitive(a, b, c); }
    forall a, b ensures !Less(a, a) && (a != b ==> Less(a, b) || Less(b, a)) { LessTotal(a, b); }
  }

  /** `ScopeSet.asString`: the names in ascending order, joined by single spaces. */
  ghost function AsString(scopes: set<Scope>): string {
    LessIsStrictTotal();
    Join(Sorted(scopes, Less))
  }

  lemma WordThenSpace(word: string, rest: string)
    requires ValidScope(word)
    requires rest == "" || IsSpace(rest[0])
    ensures WordLength(word + rest) == |word|
    decreases |word|
  {
    var text := word + rest;
    assert !IsSpace(word[0]) by { assert word[0] in word; }
    assert text[1..] == word[1..] + rest;
    if |word| == 1 {
      assert text[1..] == rest;
    } else {
      assert forall c :: c in word[1..] ==> c in word;
      WordThenSpace(word[1..], rest);
    }
  }

  lemma {:induction false} WordsOfJoin(words: seq<string>)
    requires forall w :: w in words ==> ValidScope(w)
    ensures Words(Join(words)) == words
  {
    if words != [] {
      var head, tail := words[0], words[1..];
      assert !IsSpace(head[0]) by { assert head in words && head[0] in head; }
      var rest := if tail == [] then "" else " " + Join(tail);
      assert Join(words) == head + rest;
      WordThenSpace(head, rest);
      assert (head + rest)[..|head|] == head && (head + rest)[|head|..] == rest;
      WordsOfJoin(tail);
      if tail != [] {
        assert rest[1..] == Join(tail);
      }
      assert [head] + tail == words;
    }
  }

  /** Printing then parsing gives the set back, for every set of well formed names. */
  lemma ParsePrinted(scopes: set<Scope>)
    requires forall s :: s in scopes ==> ValidScope(s)
    ensures FromString(AsString(scopes)) == Some(scopes)
  {
    LessIsStrictTotal();
    var names := Sorted(scopes, Less);
    assert forall w :: w in names <==> w in Elements(names);
    WordsOfJoin(names);
  }

  lemma ParsedScopesValid(text: string, scopes: set<Scope>)
    requires FromString(text) == Some(scopes)
    ensures forall s :: s in scopes ==> ValidScope(s)
    ensures forall s :: s in scopes <==> s in Words(text)
  {
  }

  /** The characters of a scope name by their codes: small letters, digits and five marks. */
  lemma ScopeCharsExactly(c: char)
    ensures IsScopeChar(c) <==> 97 <= c as int <= 122 || 48 <= c as int <= 57 || c in "_.:/-"
  {
    assert "_.:/-" == ['_', '.', ':', '/', '-'];
  }

  /** And the spaces: tab to carriage return, space, no-break space, the Unicode separators and the byte order mark. */
  lemma SpacesExactly(c: char)
    ensures var n := c as int;
            IsSpace(c) <==> 9 <= n <= 13 || 0x2000 <= n <= 0x200A || n in {32, 160, 0x1680, 0x2028, 0x2029, 0x202F, 0x205F, 0x3000, 0xFEFF}
  {
  }

  /** A stretch of a text with no space in it and none to add at either end. */
  ghost predicate IsWordAt(text: string, i: nat, j: nat, w: string) {
    && i < j <= |text| && text[i..j] == w && (forall k | i <= k < j :: !IsSpace(text[k]))
    && (i == 0 || IsSpace(text[i - 1])) && (j == |text| || IsSpace(text[j]))
  }

  ghost predicate HasWord(text: string, w: string) {
    exists i: nat, j: nat :: IsWordAt(text, i, j, w)
  }

  ghost predicate HasWordFrom(text: string, n: nat, w: string) {
    exists i: nat, j: nat :: n <= i && IsWordAt(text, i, j, w)
  }

  /** The words of a text are exactly its maximal stretches without a space. */
  lemma {:induction false} WordsExactly(text: string, w: string)
    ensures w in Words(text) <==> HasWord(text, w)
    decreases |text|
  {
    if text == "" {
    } else if IsSpace(text[0]) {
      WordsExactly(text[1..], w);
      ShiftedWords(text, 1, w);
    } else {
      var n := WordLength(text);
      WordsExactly(text[n..], w);
      ShiftedWords(text, n, w);
      assert IsWordAt(text, 0, n, text[..n]);
      assert Words(text) == [text[..n]] + Words(text[n..]);
      if HasWord(text, w) {
        var i: nat, j: nat :| IsWordAt(text, i, j, w);
        if i < n { assert i == 0 && j == n; }
      }
    }
  }

  /** A text is accepted exactly when all its words are made of these characters, and then stands for its words. */
  lemma ParsedExactly(text: string)
    ensures FromString(text).Some? <==>
              forall w, c | HasWord(text, w) && c in w :: 97 <= c as int <= 122 || 48 <= c as int <= 57 || c in "_.:/-"
    ensures FromString(text).Some? ==> forall w :: w in FromString(text).value <==> HasWord(text, w)
  {
    hide HasWord;
    forall w ensures w in Words(text) <==> HasWord(text, w) { WordsExactly(text, w); }
    forall c ensures IsScopeChar(c) <==> 97 <= c as int <= 122 || 48 <= c as int <= 57 || c in "_.:/-" { ScopeCharsExactly(c); }
  }

  lemma Shifted(text: string, n: nat, i: nat, j: nat, w: string)
    requires 1 <= n <= |text| && (IsSpace(text[n - 1]) || n == |text| || IsSpace(text[n]))
    ensures IsWordAt(text[n..], i, j, w) <==> IsWordAt(text, i + n, j + n, w)
  {
    var rest := text[n..];
    assert forall k | 0 <= k < |rest| :: rest[k] == text[k + n];
    if i < j <= |rest| { assert rest[i..j] == text[i + n..j + n]; }
    if IsWordAt(text, i + n, j + n, w) {
      forall k | i <= k < j ensures !IsSpace(rest[k]) { assert rest[k] == text[k + n]; }
    }
  }

  /** Past a space, or up to one, the words that begin later are those of the rest. */
  lemma ShiftedWords(text: string, n: nat, w: string)
    requires 1 <= n <= |text| && (IsSpace(text[n - 1]) || n == |text| || IsSpace(text[n]))
    ensures HasWord(text[n..], w) <==> HasWordFrom(text, n, w)
  {
    hide IsWordAt;
    if HasWord(text[n..], w) {
      var i: nat, j: nat :| IsWordAt(text[n..], i, j, w);
      Shifted(text, n, i, j, w);
    }
    if HasWordFrom(text, n, w) {
      var i: nat, j: nat :| n <= i && IsWordAt(text, i, j, w);
      WordFits(text, i, j, w);
      Shifted(text, n, i - n, j - n, w);
    }
  }

  lemma WordFits(text: string, i: nat, j: nat, w: string)
    ensures IsWordAt(text, i, j, w) ==> i < j <= |text|
  {
  }

  /**
   Any accepted spelling has one canonical text, which parses to the same set; two
   spellings share it exactly when they name the same scopes: order, repetition and
   spacing are lost and nothing else is.
   */
  lemma PrintedIsCanonical(text: string, other: string, s: set<Scope>, t: set<Scope>)
    requires FromString(text) == Some(s) && FromString(other) == Some(t)
    ensures FromString(AsString(s)) == FromString(text)
    ensures AsString(s) == AsString(t) <==> s == t
    ensures s == t <==> forall w :: w in Words(text) <==> w in Words(other)
  {
    assert FromString(AsString(s)) == Some(s) && FromString(AsString(t)) == Some(t) by {
      ParsedScopesValid(text, s);
      ParsedScopesValid(other, t);
      ParsePrinted(s);
      ParsePrinted(t);
    }
    SameWordsSameScopes(text, other, s, t);
  }

  lemma SameWordsSameScopes(text: string, other: string, s: set<Scope>, t: set<Scope>)
    requires FromString(text) == Some(s) && FromString(other) == Some(t)
    ensures s == t <==> forall w :: w in Words(text) <==> w in Words(other)
  {
    ParsedScopesValid(text, s);
    ParsedScopesValid(other, t);
    if s != t {
      var w :| (w in s) != (w in t);
      assert (w in Words(text)) != (w in Words(other));
    }
  }

  /** `containsAll` */
  method ContainsAll(scopes: set<Scope>, required: set<Scope>) returns (all: bool)
    ensures all <==> required <= scopes
  {
    var todo := required;
    while todo != {}
      invariant todo <= required
      invariant required - todo <= scopes
      decreases |todo|
    {
      var scope :| scope in todo;
      if scope !in scopes {
        return false;
      }
      todo := todo - {scope};
    }
    return true;
  }

  /** `reduceTo` */
  method ReduceTo(scopes: set<Scope>, allowed: set<Scope>) returns (reduced: set<Scope>)
    ensures reduced == scopes * allowed
  {
    reduced := {};
    var todo := scopes;
    while todo != {}
      invariant todo <= scopes
      invariant reduced == (scopes - todo) * allowed
      decreases |todo|
    {
      var scope :| scope in todo;
      if scope in allowed {
        reduced := reduced + {scope};
      }
      todo := todo - {scope};
    }
  }
}
