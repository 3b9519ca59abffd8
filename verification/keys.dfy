/** Lookup of a named array in the parameter archive (`load_from_npz`). */
module Keys {
  import opened Outcome

  predicate IsUpper(c: char)
  {
    'A' <= c <= 'Z'
  }

  /** `str.lower` on one character, for the ASCII letters. */
  function LowerChar(c: char): (d: char)
    ensures !IsUpper(d)
    ensures IsUpper(c) ==> d as int == c as int + 32
    ensures !IsUpper(c) ==> d == c
  {
    if IsUpper(c) then (c as int - 'A' as int + 'a' as int) as char else c
  }

  /** `str.replace(ch, "")`: every occurrence of `ch` removed, the other characters kept in order. */
  function Without(s: string, ch: char): (r: string)
    ensures ch !in r
    ensures forall c :: c in r ==> c in s
    ensures ch !in s ==> r == s
    ensures multiset(r) == multiset(s)[ch := 0]
  {
    if |s| == 0 then ""
    else
      assert s == [s[0]] + s[1..];
      if s[0] == ch then Without(s[1..], ch)
      else [s[0]] + Without(s[1..], ch)
  }

  /** Removing `ch` keeps the order of the other characters: it works on each part of a string alone. */
  lemma {:induction false} WithoutAppend(s1: string, s2: string, ch: char)
    ensures Without(s1 + s2, ch) == Without(s1, ch) + Without(s2, ch)
  {
    if |s1| > 0 {
      assert (s1 + s2)[0] == s1[0];
      assert (s1 + s2)[1..] == s1[1..] + s2;
      WithoutAppend(s1[1..], s2, ch);
    } else {
      assert s1 + s2 == s2;
    }
  }

  /** `str.lower`, character by character. */
  function Lower(s: string): (r: string)
    ensures |r| == |s|
    ensures forall k :: 0 <= k < |r| ==> r[k] == LowerChar(s[k])
  {
    if |s| == 0 then "" else [LowerChar(s[0])] + Lower(s[1..])
  }

  /** The archive key of a table name: `-` and `+` dropped, letters lower-cased. */
  function NormaliseKey(name: string): (key: string)
  {
    Lower(Without(Without(name, '-'), '+'))
  }

  /** A normalised key holds no sign character and no upper-case letter. */
  lemma {:induction false} NormalisedKeyIsClean(name: string)
    ensures '-' !in NormaliseKey(name) && '+' !in NormaliseKey(name)
    ensures forall k :: 0 <= k < |NormaliseKey(name)| ==> !IsUpper(NormaliseKey(name)[k])
  {
    var stripped := Without(Without(name, '-'), '+');
    assert '-' !in stripped && '+' !in stripped;
    var key := Lower(stripped);
    forall k | 0 <= k < |key|
      ensures key[k] != '-' && key[k] != '+'
    {
      assert key[k] == LowerChar(stripped[k]);
      assert stripped[k] in stripped;
    }
  }

  /** Lower-casing a string with no upper-case letter changes nothing. */
  lemma {:induction false} LowerOfLower(s: string)
    requires forall k :: 0 <= k < |s| ==> !IsUpper(s[k])
    ensures Lower(s) == s
  {
    if |s| > 0 {
      LowerOfLower(s[1..]);
    }
  }

  /** Normalising a normalised key gives the same key. */
  lemma NormaliseIdempotent(name: string)
    ensures NormaliseKey(NormaliseKey(name)) == NormaliseKey(name)
  {
    var key := NormaliseKey(name);
    NormalisedKeyIsClean(name);
    assert Without(key, '-') == key;
    assert Without(Without(key, '-'), '+') == key;
    LowerOfLower(key);
  }

  /**
   * `npzfile[name]` after normalisation: the array stored under the normalised key, or
   * None where the archive raises KeyError.
   */
  function LoadFromNpz<T>(archive: map<string, T>, name: string): (r: Option<T>)
    ensures r.Some? <==> NormaliseKey(name) in archive
  {
    var key := NormaliseKey(name);
    if key in archive then Some(archive[key]) else None
  }

  /** Looking up a name and looking up its normalised form find the same array. */
  lemma LoadIgnoresSpelling<T>(archive: map<string, T>, name: string)
    ensures LoadFromNpz(archive, name) == LoadFromNpz(archive, NormaliseKey(name))
  {
    NormaliseIdempotent(name);
  }
}
