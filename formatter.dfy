/**
 * The per-record derivations the worker applies to every raw record:
 * the age in whole years, the initials of the English name, and the
 * projection of a raw record onto the record the list displays.
 */
module Formatter {

  /** A calendar date: the year, the month numbered 1 to 12 (Date's getMonth() + 1, since
      getMonth counts from 0) and the day of the month (getDate). */
  datatype Date = Date(year: int, month: int, day: int)

  /** Chronological order of dates, compared field by field. */
  predicate OnOrBefore(a: Date, b: Date)
  {
    a.year < b.year ||
    (a.year == b.year && (a.month < b.month || (a.month == b.month && a.day <= b.day)))
  }

  /** calculateAge: the number of completed years between birth and today.
      The year difference is taken back by one while this year's birthday is still ahead. */
  function CalculateAge(birth: Date, today: Date): (age: int)
    // the birthday of year `age` has been reached, that of year `age + 1` has not:
    // `age` is the floor of the elapsed time in years
    ensures OnOrBefore(Date(birth.year + age, birth.month, birth.day), today)
    ensures !OnOrBefore(Date(birth.year + age + 1, birth.month, birth.day), today)
  {
    var years := today.year - birth.year;
    var m := today.month - birth.month;
    if m < 0 || (m == 0 && today.day < birth.day) then years - 1 else years
  }

  /** Any number of years that has the two properties above is the age. */
  lemma AgeIsUnique(birth: Date, today: Date, k: int)
    requires OnOrBefore(Date(birth.year + k, birth.month, birth.day), today)
    requires !OnOrBefore(Date(birth.year + k + 1, birth.month, birth.day), today)
    ensures k == CalculateAge(birth, today)
  {
  }

  /** Birthday not yet reached versus exact anniversary. */
  lemma AgeExamples()
    ensures CalculateAge(Date(2000, 6, 16), Date(2024, 6, 15)) == 23
    ensures CalculateAge(Date(2000, 6, 15), Date(2024, 6, 15)) == 24
  {
  }

  /** The tokens of a string joined back with single spaces. */
  function Join(tokens: seq<string>): (s: string)
  {
    if |tokens| == 0 then ""
    else if |tokens| == 1 then tokens[0]
    else tokens[0] + " " + Join(tokens[1..])
  }

  /** name.split(" "): cut at every single space. The result is never empty;
      adjacent, leading or trailing spaces yield empty tokens. */
  function Split(s: string): (tokens: seq<string>)
    ensures |tokens| >= 1
    decreases |s|
  {
    if s == [] then [""]
    else
      var rest := Split(s[1..]);
      if s[0] == ' ' then [""] + rest
      else [[s[0]] + rest[0]] + rest[1..]
  }

  /** Joining the tokens with single spaces gives back the string, and no token holds a space. */
  lemma {:induction false} JoinSplit(s: string)
    ensures Join(Split(s)) == s
    ensures forall k :: 0 <= k < |Split(s)| ==> ' ' !in Split(s)[k]
    decreases |s|
  {
    if s != [] {
      var rest := Split(s[1..]);
      JoinSplit(s[1..]);
      var tokens := Split(s);
      if s[0] == ' ' {
        assert tokens == [""] + rest && tokens[1..] == rest;
        assert Join(tokens) == "" + " " + Join(rest);
        assert forall k :: 1 <= k < |tokens| ==> tokens[k] == rest[k - 1];
      } else {
        assert tokens == [[s[0]] + rest[0]] + rest[1..];
        if |rest| == 1 {
          assert Join(tokens) == [s[0]] + Join(rest);
        } else {
          assert tokens[1..] == rest[1..];
          assert Join(tokens) == ([s[0]] + rest[0]) + " " + Join(rest[1..]);
          assert Join(rest) == rest[0] + " " + Join(rest[1..]);
          assert Join(tokens) == [s[0]] + Join(rest);
        }
        assert [s[0]] + s[1..] == s;
        assert forall k :: 1 <= k < |tokens| ==> tokens[k] == rest[k];
        assert ' ' !in [s[0]] + rest[0];
      }
    }
  }

  /** Splitting undoes joining space-free tokens. */
  lemma {:induction false} SplitJoin(tokens: seq<string>)
    requires |tokens| >= 1
    requires forall k :: 0 <= k < |tokens| ==> ' ' !in tokens[k]
    ensures Split(Join(tokens)) == tokens
    decreases |tokens|, |tokens[0]|
  {
    var t := tokens[0];
    if |tokens| == 1 {
      NoSpaceSplit(t);
    } else if t == [] {
      var rest := tokens[1..];
      assert Join(tokens) == " " + Join(rest);
      assert (" " + Join(rest))[1..] == Join(rest);
      SplitJoin(rest);
      assert [""] + rest == tokens;
    } else {
      var shorter := [t[1..]] + tokens[1..];
      assert shorter[1..] == tokens[1..];
      assert Join(tokens) == [t[0]] + Join(shorter);
      assert ([t[0]] + Join(shorter))[1..] == Join(shorter);
      assert forall k :: 0 <= k < |shorter| ==> ' ' !in shorter[k] by {
        assert forall k :: 1 <= k < |shorter| ==> shorter[k] == tokens[k];
        assert forall c :: c in t[1..] ==> c in t;
      }
      SplitJoin(shorter);
      var s := Join(tokens);
      assert s[0] == t[0] && t[0] != ' ' && s[1..] == Join(shorter);
      assert Split(s) == [[t[0]] + shorter[0]] + shorter[1..];
      assert [t[0]] + t[1..] == t;
      assert [t] + tokens[1..] == tokens;
    }
  }

  /** A string without a space is a single token. */
  lemma {:induction false} NoSpaceSplit(s: string)
    requires ' ' !in s
    ensures Split(s) == [s]
    decreases |s|
  {
    if s != [] {
      assert ' ' !in s[1..] by { assert forall c :: c in s[1..] ==> c in s; }
      NoSpaceSplit(s[1..]);
      assert [s[0]] + s[1..] == s;
    }
  }

  /** There is more than one token exactly when the string contains a space, and then
      the last token is what follows the last space. */
  lemma {:induction false} SplitLast(s: string, j: int)
    requires 0 <= j < |s| && s[j] == ' ' && ' ' !in s[j + 1..]
    ensures |Split(s)| > 1
    ensures Split(s)[|Split(s)| - 1] == s[j + 1..]
    decreases |s|
  {
    var rest := Split(s[1..]);
    if j == 0 {
      NoSpaceSplit(s[1..]);
    } else {
      assert s[1..][j - 1] == ' ';
      assert s[1..][j..] == s[j + 1..];
      SplitLast(s[1..], j - 1);
    }
  }

  /** String.prototype.charAt(0) as a string: the first character, or "" for "". */
  function FirstChar(s: string): (r: string)
    ensures |r| <= 1
    ensures r == [] <==> s == []
    ensures r != [] ==> r[0] == s[0]
  {
    if s == [] then "" else [s[0]]
  }

  /** getInitials: first character of the first token, followed by the first
      character of the last token when there is more than one token. */
  function GetInitials(name: string): (r: string)
    ensures |r| <= 2
  {
    var names := Split(name);
    FirstChar(names[0]) + (if |names| > 1 then FirstChar(names[|names| - 1]) else "")
  }

  /** The leading initial: the name's first character unless the name is empty or starts with a space. */
  function Lead(name: string): (initial: string)
  {
    if name != [] && name[0] != ' ' then [name[0]] else ""
  }

  lemma FirstTokenLead(name: string)
    ensures FirstChar(Split(name)[0]) == Lead(name)
  {
  }

  /** A name without a space contributes only its first character. */
  lemma InitialsOfOneToken(name: string)
    requires ' ' !in name
    ensures GetInitials(name) == FirstChar(name)
  {
    NoSpaceSplit(name);
  }

  /** With a space, the second initial is the first character after the last space. */
  lemma InitialsOfSeveralTokens(name: string, j: int)
    requires 0 <= j < |name| && name[j] == ' ' && ' ' !in name[j + 1..]
    ensures GetInitials(name) == Lead(name) + FirstChar(name[j + 1..])
  {
    SplitLast(name, j);
    FirstTokenLead(name);
  }

  lemma InitialsExamples()
    ensures GetInitials("Jane Doe") == "JD"
    ensures GetInitials("Cher") == "C"
  {
    var jd := "Jane Doe";
    assert jd[4] == ' ' && jd[5..] == "Doe";
    InitialsOfSeveralTokens(jd, 4);
    InitialsOfOneToken("Cher");
  }

  /** A record as it comes out of the parsed JSON array (dob already read as a date). */
  datatype RawRecord = RawRecord(id: string, enName: string, name: string, dob: Date, source: string)

  /** The displayed projection of a raw record. */
  datatype DisplayRecord = DisplayRecord(id: string, enName: string, name: string, age: int,
                                         dob: Date, initials: string, source: string)

  /** The worker's map callback for one record; `today` is the clock value `new Date()` reads. */
  function ProcessRecord(today: Date, r: RawRecord): (d: DisplayRecord)
    // the identifying and descriptive fields pass through unchanged
    ensures d.id == r.id && d.enName == r.enName && d.name == r.name && d.dob == r.dob && d.source == r.source
    // the age is the number of birthdays of r.dob reached by today
    ensures OnOrBefore(Date(r.dob.year + d.age, r.dob.month, r.dob.day), today)
    ensures !OnOrBefore(Date(r.dob.year + d.age + 1, r.dob.month, r.dob.day), today)
    // at most two initials; a one-word English name gives just its first character
    ensures |d.initials| <= 2
    ensures ' ' !in r.enName ==> d.initials == FirstChar(r.enName)
  {
    var d := DisplayRecord(r.id, r.enName, r.name, CalculateAge(r.dob, today), r.dob, GetInitials(r.enName), r.source);
    if ' ' !in r.enName then InitialsOfOneToken(r.enName); d else d
  }

  /** For an English name with a space, the displayed initials are its leading initial and the
      first character after its last space. */
  lemma ProcessedInitials(today: Date, r: RawRecord, j: int)
    requires 0 <= j < |r.enName| && r.enName[j] == ' ' && ' ' !in r.enName[j + 1..]
    ensures ProcessRecord(today, r).initials == Lead(r.enName) + FirstChar(r.enName[j + 1..])
  {
    InitialsOfSeveralTokens(r.enName, j);
  }

  function ProcessChunk(today: Date, chunk: seq<RawRecord>): (out: seq<DisplayRecord>)
    ensures |out| == |chunk|
  {
    seq(|chunk|, k requires 0 <= k < |chunk| => ProcessRecord(today, chunk[k]))
  }

  lemma ProcessChunkAt(today: Date, chunk: seq<RawRecord>, k: nat)
    requires k < |chunk|
    ensures ProcessChunk(today, chunk)[k] == ProcessRecord(today, chunk[k])
  {
  }

  lemma ProcessChunkAppend(today: Date, a: seq<RawRecord>, b: seq<RawRecord>)
    ensures ProcessChunk(today, a + b) == ProcessChunk(today, a) + ProcessChunk(today, b)
  {
    var whole, parts := ProcessChunk(today, a + b), ProcessChunk(today, a) + ProcessChunk(today, b);
    forall k | 0 <= k < |whole| ensures whole[k] == parts[k] {
      if k < |a| {
        assert (a + b)[k] == a[k];
      } else {
        assert (a + b)[k] == b[k - |a|];
      }
    }
  }
}
