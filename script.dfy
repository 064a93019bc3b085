/** Script and case tests on labels (scripts/prompt.py:16-27). Unicode's
    character tables are not modelled: each per-character fact the scripts ask
    of Python's `unicodedata` or `str` methods is an abstract predicate. */
module Script {

  /** The per-character facts the scripts read from Unicode's tables. */
  datatype CharTables = CharTables(
    isAlpha: char -> bool,         // `c.isalpha()`
    hasLatinName: char -> bool,    // `'LATIN' in unicodedata.name(c)`
    isUpper: char -> bool,         // an upper-case letter
    isLowerOrTitle: char -> bool   // a lower-case or title-case letter
  )

  /** `some_roman_chars`: some alphabetic character of `s` has a Latin name. */
  predicate SomeRomanChars(u: CharTables, s: string) {
    exists i :: 0 <= i < |s| && u.isAlpha(s[i]) && u.hasLatinName(s[i])
  }

  /** `s.isupper()`: no lower- or title-case character, and at least one
      upper-case one. */
  predicate IsUpperText(u: CharTables, s: string) {
    && (forall i :: 0 <= i < |s| ==> !u.isLowerOrTitle(s[i]))
    && (exists i :: 0 <= i < |s| && u.isUpper(s[i]))
  }

  /** The `latin_letters` memo table of `is_latin`: it remembers, per
      character, whether the character's Unicode name says LATIN. */
  class LatinMemo {
    const tables: CharTables
    var known: map<char, bool>

    ghost predicate Valid()
      reads this
    {
      forall c :: c in known ==> known[c] == tables.hasLatinName(c)
    }

    constructor (tables: CharTables)
      ensures Valid() && this.tables == tables && known == map[]
    {
      this.tables := tables;
      known := map[];
    }

    /** `is_latin`: a hit returns what was remembered, a miss computes and
        remembers; either way the answer is the table's. */
    method IsLatin(c: char) returns (b: bool)
      requires Valid()
      modifies this
      ensures Valid()
      ensures b == tables.hasLatinName(c)
      ensures known == if c in old(known) then old(known) else old(known)[c := b]
    {
      if c in known {
        b := known[c];
      } else {
        b := tables.hasLatinName(c);
        known := known[c := b];
      }
    }

    /** `some_roman_chars` through the memo: `any` stops at the first
        alphabetic character with a Latin name, and only the alphabetic
        characters up to there are looked up. */
    method SomeRoman(s: string) returns (r: bool)
      requires Valid()
      modifies this
      ensures Valid()
      ensures r == SomeRomanChars(tables, s)
      ensures old(known).Keys <= known.Keys
      ensures forall c :: c in known && c !in old(known) ==> c in s && tables.isAlpha(c)
    {
      var i := 0;
      r := false;
      while i < |s|
        invariant 0 <= i <= |s|
        invariant Valid()
        invariant old(known).Keys <= known.Keys
        invariant forall c :: c in known && c !in old(known) ==> c in s[..i] && tables.isAlpha(c)
        invariant forall j :: 0 <= j < i ==> !(tables.isAlpha(s[j]) && tables.hasLatinName(s[j]))
      {
        if tables.isAlpha(s[i]) {
          var latin := IsLatin(s[i]);
          if latin {
            r := true;
            return;
          }
        }
        i := i + 1;
      }
    }
  }
}
