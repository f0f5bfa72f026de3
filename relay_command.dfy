/** The relay actuation command (`RelayCommand.kt`): the only two legal
    values, their wire spelling, and the tolerant parser `fromRaw`. */
module RelayCommands {
  import opened Wrappers
  import opened Text

  datatype RelayCommand = On | Off {

    /** The command's wire spelling: lower-case letters only. */
    function Raw(): (r: string)
      ensures |r| >= 2 && forall i :: 0 <= i < |r| ==> 'a' <= r[i] <= 'z'
    {
      match this
      case On => "on"
      case Off => "off"
    }
  }

  /** `fromRaw`: a string parses to the command whose spelling equals its
      trimmed, lower-cased form; `null` and every other string give `null`. */
  function FromRaw(raw: Option<string>): (r: Option<RelayCommand>)
    ensures raw.None? ==> r.None?
  {
    match raw
    case None => None
    case Some(s) =>
      var normal := Lower(Trim(s));
      if normal == "on" then Some(On)
      else if normal == "off" then Some(Off)
      else None
  }

  /** The two spellings are distinct, so a spelling names one command. */
  lemma RawInjective(c: RelayCommand, d: RelayCommand)
    ensures c.Raw() == d.Raw() ==> c == d
  {
    if c != d {
      assert |c.Raw()| != |d.Raw()|;
    }
  }

  /** A spelling is already in normal form, trimmed and lower-case. */
  lemma RawIsNormalForm(c: RelayCommand)
    ensures Lower(Trim(c.Raw())) == c.Raw()
  {
    var r := c.Raw();
    assert TrimStart(r) == r;
    assert TrimEnd(r) == r;
    assert Lower(r) == r;
  }

  /** Round trip: parsing a command's spelling gives the command back. */
  lemma FromRawOfRaw(c: RelayCommand)
    ensures FromRaw(Some(c.Raw())) == Some(c)
  {
    RawIsNormalForm(c);
    RawInjective(c, FromRaw(Some(c.Raw())).value);
  }

  /** Parsing is exactly "equal to a spelling after trim and lowercase":
      `fromRaw(s) == c` iff `s` normalises to `c.raw`. */
  lemma FromRawExactly(s: string, c: RelayCommand)
    ensures FromRaw(Some(s)) == Some(c) <==> Lower(Trim(s)) == c.Raw()
  {
    if Lower(Trim(s)) == c.Raw() {
      RawInjective(c, FromRaw(Some(s)).value);
    }
  }

  /** Nothing defaults to a command: a string that normalises to neither
      spelling gives null. */
  lemma FromRawRejects(s: string)
    requires Lower(Trim(s)) != On.Raw() && Lower(Trim(s)) != Off.Raw()
    ensures FromRaw(Some(s)).None?
  {
  }

  /** A character that lowers to a letter is not whitespace. */
  lemma LowersToLetterNotWhitespace(x: char)
    requires 'a' <= LowerChar(x) <= 'z'
    ensures !IsWhitespace(x)
  {
  }

  /** Any capitalisation of a spelling, surrounded by any whitespace, parses
      to that command: `" On "`, `"ON"` and `"on"` all give ON. */
  lemma FromRawPaddedAnyCase(w1: string, t: string, w2: string, c: RelayCommand)
    requires AllWhitespace(w1) && AllWhitespace(w2)
    requires Lower(t) == c.Raw()
    ensures FromRaw(Some(w1 + t + w2)) == Some(c)
  {
    assert Lower(t)[0] == LowerChar(t[0]) && 'a' <= Lower(t)[0] <= 'z';
    LowersToLetterNotWhitespace(t[0]);
    var k := |t| - 1;
    assert Lower(t)[k] == LowerChar(t[k]) && 'a' <= Lower(t)[k] <= 'z';
    LowersToLetterNotWhitespace(t[k]);
    TrimOfPadded(w1, t, w2);
    FromRawExactly(w1 + t + w2, c);
  }
}
