/** The slug generator: five passes over a name, and the one-pass normal form that they compute. */
module Slug {

  /** Lower case, rune by rune.  Besides A to Z, two runes lower to ASCII letters; what other runes lower to does
      not matter here, since it is neither a letter a to z nor a digit nor a dash nor a space. */
  function LowerRune(c: char): char {
    if 'A' <= c <= 'Z' then c + 32 as char
    else if c == '\U{0130}' then 'i'
    else if c == '\U{212A}' then 'k'
    else c
  }

  predicate Alnum(c: char) {
    'a' <= c <= 'z' || '0' <= c <= '9'
  }

  function Lower(s: string): string {
    if s == "" then "" else [LowerRune(s[0])] + Lower(s[1..])
  }

  function SpacesToDashes(s: string): string {
    if s == "" then "" else [if s[0] == ' ' then '-' else s[0]] + SpacesToDashes(s[1..])
  }

  function DeleteOthers(s: string): string {
    if s == "" then ""
    else (if Alnum(s[0]) || s[0] == '-' then [s[0]] else "") + DeleteOthers(s[1..])
  }

  function SkipDashes(s: string): (r: string)
    ensures |r| <= |s| && (r == "" || r[0] != '-')
  {
    if s != "" && s[0] == '-' then SkipDashes(s[1..]) else s
  }

  /** Every run of dashes becomes one dash. */
  function CollapseDashes(s: string): string
    decreases |s|
  {
    if s == "" then ""
    else if s[0] == '-' then "-" + CollapseDashes(SkipDashes(s[1..]))
    else [s[0]] + CollapseDashes(s[1..])
  }

  function DropDashes(s: string): (r: string)
    ensures r <= s && (r == "" || r[|r| - 1] != '-')
  {
    if s != "" && s[|s| - 1] == '-' then DropDashes(s[..|s| - 1]) else s
  }

  function Trim(s: string): string {
    DropDashes(SkipDashes(s))
  }

  function GenerateSlug(name: string): string {
    Trim(CollapseDashes(DeleteOthers(SpacesToDashes(Lower(name)))))
  }

  // -------------------------------------------------- the normal form

  const ALPHABET := "abcdefghijklmnopqrstuvwxyz"

  /** What one rune of a name contributes to its slug: a letter or a digit itself, in lower case, a space a dash, and
      other runes nothing. */
  function Piece(c: char): string {
    if 'a' <= c <= 'z' || '0' <= c <= '9' || c == '-' then [c]
    else if 'A' <= c <= 'Z' then [ALPHABET[c as int - 'A' as int]]
    else if c == ' ' then "-"
    else if c == '\U{0130}' then "i"
    else if c == '\U{212A}' then "k"
    else ""
  }

  /** The contributions of all runes. */
  function Clean(name: string): string {
    if name == "" then "" else Piece(name[0]) + Clean(name[1..])
  }

  function Emit(word: string): seq<string> {
    if word == "" then [] else [word]
  }

  /** The non-empty segments between dashes; `current` is the segment read so far. */
  function Words(s: string, current: string): seq<string>
    decreases |s|
  {
    if s == "" then Emit(current)
    else if s[0] == '-' then Emit(current) + Words(s[1..], "")
    else Words(s[1..], current + [s[0]])
  }

  function Join(words: seq<string>): string {
    if words == [] then ""
    else if |words| == 1 then words[0]
    else words[0] + "-" + Join(words[1..])
  }

  ghost predicate NoDoubleDash(s: string) {
    forall i :: 0 <= i < |s| - 1 ==> !(s[i] == '-' && s[i + 1] == '-')
  }

  ghost predicate SlugChars(s: string) {
    forall i :: 0 <= i < |s| ==> Alnum(s[i]) || s[i] == '-'
  }

  /** Letters, digits and single inner dashes. */
  ghost predicate Normal(s: string) {
    SlugChars(s) && NoDoubleDash(s) && (s != "" ==> s[0] != '-' && s[|s| - 1] != '-')
  }

  lemma Lowered(c: char)
    requires 'A' <= c <= 'Z'
    ensures LowerRune(c) == ALPHABET[c as int - 'A' as int] && 'a' <= LowerRune(c) <= 'z'
  {
  }

  /** What the first three passes make of one rune. */
  function PassedOn(c: char): string {
    var low := LowerRune(c);
    if low == ' ' then "-" else if Alnum(low) || low == '-' then [low] else ""
  }

  lemma PassesGivePiece(c: char)
    ensures PassedOn(c) == Piece(c) && SlugChars(Piece(c))
  {
    if 'A' <= c <= 'Z' {
      Lowered(c);
    }
  }

  lemma {:induction false} ThreePasses(name: string)
    requires name != ""
    ensures DeleteOthers(SpacesToDashes(Lower(name)))
         == PassedOn(name[0]) + DeleteOthers(SpacesToDashes(Lower(name[1..])))
  {
    assert Lower(name)[1..] == Lower(name[1..]);
    assert SpacesToDashes(Lower(name))[1..] == SpacesToDashes(Lower(name[1..]));
  }

  lemma {:induction false} CleanIsThreePasses(name: string)
    ensures DeleteOthers(SpacesToDashes(Lower(name))) == Clean(name) && SlugChars(Clean(name))
  {
    if name != "" {
      CleanIsThreePasses(name[1..]);
      ThreePasses(name);
      PassesGivePiece(name[0]);
    }
  }

  // Collapsing and trimming keep the words.

  lemma {:induction false} SkipKeepsWords(s: string)
    ensures Words(SkipDashes(s), "") == Words(s, "")
  {
    if s != "" && s[0] == '-' {
      SkipKeepsWords(s[1..]);
      assert Emit("") + Words(s[1..], "") == Words(s[1..], "");
    }
  }

  lemma {:induction false} CollapseKeepsWords(s: string, current: string)
    ensures Words(CollapseDashes(s), current) == Words(s, current)
    decreases |s|
  {
    if s != "" {
      var t := CollapseDashes(s);
      if s[0] == '-' {
        assert t[1..] == CollapseDashes(SkipDashes(s[1..]));
        CollapseKeepsWords(SkipDashes(s[1..]), "");
        SkipKeepsWords(s[1..]);
      } else {
        assert t[1..] == CollapseDashes(s[1..]);
        CollapseKeepsWords(s[1..], current + [s[0]]);
      }
    }
  }

  lemma {:induction false} DashAtEnd(s: string, current: string)
    ensures Words(s + "-", current) == Words(s, current)
    decreases |s|
  {
    if s == "" {
      assert Words("-", current) == Emit(current) + Words("", "");
    } else {
      assert (s + "-")[1..] == s[1..] + "-";
      DashAtEnd(s[1..], if s[0] == '-' then "" else current + [s[0]]);
    }
  }

  lemma {:induction false} DropKeepsWords(s: string)
    ensures Words(DropDashes(s), "") == Words(s, "")
  {
    if s != "" && s[|s| - 1] == '-' {
      DropKeepsWords(s[..|s| - 1]);
      assert s == s[..|s| - 1] + "-";
      DashAtEnd(s[..|s| - 1], "");
    }
  }

  // They produce a normal form.

  lemma {:induction false} CollapseLeavesSingle(s: string)
    requires SlugChars(s)
    ensures NoDoubleDash(CollapseDashes(s)) && SlugChars(CollapseDashes(s))
    ensures s != "" ==> CollapseDashes(s) != "" && CollapseDashes(s)[0] == s[0]
    decreases |s|
  {
    if s != "" {
      var rest := if s[0] == '-' then SkipDashes(s[1..]) else s[1..];
      SkipKeepsChars(s[1..]);
      CollapseLeavesSingle(rest);
      assert CollapseDashes(s) == [s[0]] + CollapseDashes(rest);
    }
  }

  lemma {:induction false} SkipKeepsChars(s: string)
    requires SlugChars(s)
    ensures SlugChars(SkipDashes(s)) && (NoDoubleDash(s) ==> NoDoubleDash(SkipDashes(s)))
  {
    if s != "" && s[0] == '-' {
      assert forall i :: 0 <= i < |s[1..]| ==> s[1..][i] == s[i + 1];
      SkipKeepsChars(s[1..]);
    }
  }

  lemma PrefixKeepsNormal(s: string, r: string)
    requires SlugChars(s) && NoDoubleDash(s) && r <= s
    ensures SlugChars(r) && NoDoubleDash(r)
  {
  }

  lemma TrimmedIsNormal(s: string)
    requires SlugChars(s) && NoDoubleDash(s)
    ensures Normal(Trim(s))
  {
    SkipKeepsChars(s);
    PrefixKeepsNormal(SkipDashes(s), Trim(s));
  }

  // A normal form is the join of its words.

  lemma {:induction false} JoinWords(s: string, current: string)
    requires NoDoubleDash(s) && (s != "" ==> s[|s| - 1] != '-')
    requires current == "" ==> s == "" || s[0] != '-'
    ensures Join(Words(s, current)) == current + s
    ensures current != "" || s != "" ==> Words(s, current) != []
    decreases |s|
  {
    if s != "" {
      assert forall i :: 0 <= i < |s[1..]| ==> s[1..][i] == s[i + 1];
      if s[0] == '-' {
        JoinWords(s[1..], "");
        var ws := Words(s[1..], "");
        assert ([current] + ws)[1..] == ws;
        assert s == "-" + s[1..];
      } else {
        JoinWords(s[1..], current + [s[0]]);
        assert current + [s[0]] + s[1..] == current + s;
      }
    }
  }

  /** The five passes give the words of the cleaned name, joined by single dashes. */
  lemma SlugIsJoinedWords(name: string)
    ensures GenerateSlug(name) == Join(Words(Clean(name), ""))
    ensures Normal(GenerateSlug(name))
  {
    CleanIsThreePasses(name);
    var clean := Clean(name);
    var single := CollapseDashes(clean);
    CollapseKeepsWords(clean, "");
    CollapseLeavesSingle(clean);
    SkipKeepsWords(single);
    DropKeepsWords(SkipDashes(single));
    TrimmedIsNormal(single);
    JoinWords(Trim(single), "");
  }

  lemma {:induction false} WordsAreWords(s: string, current: string, w: string)
    requires SlugChars(s) && (forall i :: 0 <= i < |current| ==> Alnum(current[i])) && w in Words(s, current)
    ensures w != "" && forall i :: 0 <= i < |w| ==> Alnum(w[i])
    decreases |s|
  {
    if s != "" {
      if s[0] != '-' {
        WordsAreWords(s[1..], current + [s[0]], w);
      } else if w in Words(s[1..], "") {
        WordsAreWords(s[1..], "", w);
      }
    }
  }

  /** The segments of a name are non-empty and alphanumeric. */
  lemma NameWords(name: string, w: string)
    requires w in Words(Clean(name), "")
    ensures w != "" && forall i :: 0 <= i < |w| ==> Alnum(w[i])
  {
    CleanIsThreePasses(name);
    WordsAreWords(Clean(name), "", w);
  }

  predicate LetterOrDigit(c: char) {
    'a' <= c <= 'z' || 'A' <= c <= 'Z' || '0' <= c <= '9'
  }

  /** The same in lower case: the letters A to Z stand 32 below a to z. */
  function SmallLetter(c: char): int {
    if 'A' <= c <= 'Z' then c as int + 32 else c as int
  }

  lemma {:induction false} CleanOfLetters(name: string)
    requires forall i :: 0 <= i < |name| ==> LetterOrDigit(name[i])
    ensures |Clean(name)| == |name| && forall i :: 0 <= i < |name| ==> Clean(name)[i] as int == SmallLetter(name[i])
  {
    if name != "" {
      CleanOfLetters(name[1..]);
      if 'A' <= name[0] <= 'Z' {
        Lowered(name[0]);
      }
      assert Clean(name) == Piece(name[0]) + Clean(name[1..]) && |Piece(name[0])| == 1;
      forall i | 0 <= i < |name|
        ensures Clean(name)[i] as int == SmallLetter(name[i])
      {
        assert i > 0 ==> Clean(name)[i] == Clean(name[1..])[i - 1] && name[i] == name[1..][i - 1];
      }
    }
  }

  lemma {:induction false} NoDashNoWords(s: string, current: string)
    requires forall i :: 0 <= i < |s| ==> s[i] != '-'
    ensures Words(s, current) == Emit(current + s)
    decreases |s|
  {
    if s == "" {
      assert current + s == current;
    } else {
      NoDashNoWords(s[1..], current + [s[0]]);
      assert current + [s[0]] + s[1..] == current + s;
    }
  }

  /** The slug of a name of letters and digits is the name in lower case, position by position. */
  lemma SlugOfLetters(name: string)
    requires forall i :: 0 <= i < |name| ==> LetterOrDigit(name[i])
    ensures |GenerateSlug(name)| == |name|
    ensures forall i :: 0 <= i < |name| ==>
              GenerateSlug(name)[i] as int == if 'A' <= name[i] <= 'Z' then name[i] as int + 32 else name[i] as int
  {
    SlugIsJoinedWords(name);
    CleanOfLetters(name);
    var clean := Clean(name);
    assert forall i :: 0 <= i < |clean| ==> clean[i] as int == SmallLetter(name[i]);
    NoDashNoWords(clean, "");
    assert "" + clean == clean;
  }

  lemma {:induction false} CleanOfNormal(s: string)
    requires SlugChars(s)
    ensures Clean(s) == s
  {
    if s != "" {
      CleanOfNormal(s[1..]);
    }
  }

  /** Slugs are exactly the normal forms, and a slug is its own slug. */
  lemma SlugIdempotent(s: string)
    ensures GenerateSlug(GenerateSlug(s)) == GenerateSlug(s)
    ensures GenerateSlug(s) == s <==> Normal(s)
  {
    SlugIsJoinedWords(s);
    NormalFixed(GenerateSlug(s));
    if Normal(s) {
      NormalFixed(s);
    }
  }

  lemma NormalFixed(s: string)
    requires Normal(s)
    ensures GenerateSlug(s) == s
  {
    SlugIsJoinedWords(s);
    CleanOfNormal(s);
    JoinWords(s, "");
  }
}
