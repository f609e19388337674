/**
 * The profile header (ProfileHeader.jsx): the `?…=…` edit flag read from the query
 * string, the connection count, and the header's own state, which its two effects
 * update: the most recent school and company, recomputed when the user changes,
 * and the request to open the edit-intro overlay, made when the edit flag changes.
 */
module Header {
  import opened Wrappers
  import opened Entities
  import opened Recency

  // ---------------------------------------------------------------------------
  // The query string and the edit flag read from it
  // ---------------------------------------------------------------------------

  /** The pieces joined into one string with `sep` between neighbours. */
  function Join(parts: seq<string>, sep: char): string
    requires |parts| >= 1
    decreases |parts|
  {
    if |parts| == 1 then parts[0] else parts[0] + [sep] + Join(parts[1..], sep)
  }

  /**
   * `s.split(sep)` for a one-character separator: the pieces between separators,
   * at least one (an empty string splits into one empty piece). Joining them with
   * `sep` gives `s` back, and no piece holds `sep`.
   */
  function Split(s: string, sep: char): (parts: seq<string>)
    ensures |parts| >= 1
    ensures forall i :: 0 <= i < |parts| ==> sep !in parts[i]
    ensures Join(parts, sep) == s
    decreases |s|
  {
    if s == [] then [[]]
    else
      var rest := Split(s[1..], sep);
      if s[0] == sep then
        assert s == [] + [sep] + Join(rest, sep);
        [[]] + rest
      else
        var first := [s[0]] + rest[0];
        assert s == [s[0]] + Join(rest, sep);
        assert |rest| > 1 ==> Join(rest, sep) == rest[0] + [sep] + Join(rest[1..], sep);
        assert ([first] + rest[1..])[1..] == rest[1..];
        [first] + rest[1..]
  }

  /** Splitting after a separator-free prefix only extends the first piece. */
  lemma {:induction false} SplitAfterSepFree(p: string, t: string, sep: char)
    requires sep !in p
    ensures Split(p + t, sep) == [p + Split(t, sep)[0]] + Split(t, sep)[1..]
    decreases |p|
  {
    if p == [] {
      var parts := Split(t, sep);
      assert p + t == t;
      assert p + parts[0] == parts[0];
      assert parts == [parts[0]] + parts[1..];
    } else {
      assert (p + t)[1..] == p[1..] + t;
      SplitAfterSepFree(p[1..], t, sep);
      assert [p[0]] + (p[1..] + Split(t, sep)[0]) == p + Split(t, sep)[0];
    }
  }

  /** A leading separator closes an empty first piece. */
  lemma SplitAtSep(t: string, sep: char)
    ensures Split([sep] + t, sep) == [[]] + Split(t, sep)
  {
  }

  /** The other round trip: separator-free pieces are recovered by splitting their join. */
  lemma {:induction false} SplitOfJoin(parts: seq<string>, sep: char)
    requires |parts| >= 1
    requires forall i :: 0 <= i < |parts| ==> sep !in parts[i]
    ensures Split(Join(parts, sep), sep) == parts
    decreases |parts|
  {
    var head := parts[0];
    if |parts| == 1 {
      SplitAfterSepFree(head, [], sep);
      assert head + [] == head;
    } else {
      var rest := parts[1..];
      SplitOfJoin(rest, sep);
      SplitPrepend(head, rest, sep);
      assert Join(parts, sep) == head + ([sep] + Join(rest, sep));
      assert parts == [head] + rest;
    }
  }

  /** One step of `SplitOfJoin`: a separator-free piece and a separator in front of a join. */
  lemma SplitPrepend(head: string, rest: seq<string>, sep: char)
    requires sep !in head && |rest| >= 1
    requires Split(Join(rest, sep), sep) == rest
    ensures Split(head + ([sep] + Join(rest, sep)), sep) == [head] + rest
  {
    var tail := Join(rest, sep);
    SplitAtSep(tail, sep);
    var after := Split([sep] + tail, sep);
    assert after[0] == [] && after[1..] == rest;
    SplitAfterSepFree(head, [sep] + tail, sep);
    assert head + [] == head;
  }

  /**
   * `search` reads `key=value` followed by nothing or by another `=`, where
   * neither `key` nor `value` holds a `=`.
   */
  predicate IsQuery(search: string, key: string, value: string, rest: string) {
    '=' !in key && '=' !in value && (rest == [] || rest[0] == '=') &&
    search == key + ['='] + value + rest
  }

  /**
   * The edit flag: the piece of the query string between its first `=` and the
   * next one (or the end), and undefined when the query string holds no `=`.
   * The key before the first `=` may be anything, so `?mode=1` sets it too.
   */
  function EditFlag(search: string): (flag: Option<string>)
    ensures flag.None? <==> '=' !in search
    ensures flag.Some? ==> exists key, rest :: IsQuery(search, key, flag.value, rest)
  {
    var parts := Split(search, '=');
    if |parts| >= 2 then
      var key, value := parts[0], parts[1];
      var rest := if |parts| == 2 then [] else ['='] + Join(parts[2..], '=');
      assert parts[1..][1..] == parts[2..];
      assert Join(parts[1..], '=') == value + rest;
      assert IsQuery(search, key, value, rest);
      Some(value)
    else
      assert search == parts[0];
      None
  }

  /** The first `=` of a query string `key=…` with a `=`-free key is the one after the key. */
  lemma FirstSeparator(search: string, key: string, tail: string, i: int)
    requires '=' !in key && search == key + ['='] + tail
    requires 0 <= i < |search| && search[i] == '=' && '=' !in search[..i]
    ensures i == |key|
  {
    assert search[..|key|] == key;
    assert search[|key|] == '=';
  }

  /** The position of the first `c` in `s`, or `|s|` when there is none. */
  function FirstIndex(s: string, c: char): (i: nat)
    ensures i <= |s| && c !in s[..i]
    ensures i < |s| ==> s[i] == c
    decreases |s|
  {
    if s == [] || s[0] == c then 0
    else
      var j := FirstIndex(s[1..], c);
      assert s[..j + 1] == [s[0]] + s[1..][..j];
      j + 1
  }

  /**
   * Whether the header asks for the edit-intro overlay: the edit flag is a
   * non-empty string, that is, the query string's first `=` is followed by a
   * character other than `=`.
   */
  predicate OpensEditModal(search: string): (open: bool)
    ensures open <==> (var i := FirstIndex(search, '='); i + 1 < |search| && search[i + 1] != '=')
  {
    var flag := EditFlag(search);
    OpensEditModalMeaning(search);
    flag.Some? && flag.value != ""
  }

  /** The proof of `OpensEditModal`'s contract, by the first `=` of the query string. */
  lemma OpensEditModalMeaning(search: string)
    ensures (EditFlag(search).Some? && EditFlag(search).value != "") <==>
            (var i := FirstIndex(search, '='); i + 1 < |search| && search[i + 1] != '=')
  {
    var flag := EditFlag(search);
    if flag.Some? {
      var key, rest :| IsQuery(search, key, flag.value, rest);
      FlagAfterKey(search, key, flag.value, rest);
    }
  }

  /** In `key=value…`, the first `=` is the one after the key, and `value` is what follows it. */
  lemma FlagAfterKey(search: string, key: string, value: string, rest: string)
    requires IsQuery(search, key, value, rest)
    ensures FirstIndex(search, '=') == |key|
    ensures value != "" <==> |key| + 1 < |search| && search[|key| + 1] != '='
  {
    var tail := value + rest;
    assert search == key + ['='] + tail;
    assert search[|key|] == '=';
    FirstSeparator(search, key, tail, FirstIndex(search, '='));
    assert search[|key| + 1..] == tail;
    if value != "" {
      assert search[|key| + 1] == value[0];
      assert value[0] in value;
    } else if |key| + 1 < |search| {
      assert search[|key| + 1] == rest[0];
    }
  }

  /**
   * For `key=value` followed by nothing or by another `=`, the flag is `value`,
   * whatever the key is called.
   */
  lemma EditFlagOfQuery(key: string, value: string, rest: string)
    requires '=' !in key && '=' !in value
    requires rest == [] || rest[0] == '='
    ensures EditFlag(key + ['='] + value + rest) == Some(value)
  {
    var tail := ['='] + (value + rest);
    assert key + ['='] + value + rest == key + tail;
    SplitAfterSepFree(key, tail, '=');
    assert tail[0] == '=' && tail[1..] == value + rest;
    var after := Split(value + rest, '=');
    assert Split(tail, '=') == [[]] + after;
    SplitAfterSepFree(value, rest, '=');
    assert Split(rest, '=')[0] == [] by {
      if rest != [] {
        assert rest[0] == '=';
      }
    }
    assert after[0] == value;
  }

  /** `?edit=true` and `?mode=1` open the overlay; `?edit=`, `?edit` and `` do not. */
  lemma EditQueryExamples()
    ensures OpensEditModal("?edit=true") && OpensEditModal("?mode=1")
    ensures !OpensEditModal("?edit=") && !OpensEditModal("?edit") && !OpensEditModal("")
  {
    EditFlagOfQuery("?edit", "true", "");
    assert "?edit" + ['='] + "true" + "" == "?edit=true";
    EditFlagOfQuery("?mode", "1", "");
    assert "?mode" + ['='] + "1" + "" == "?mode=1";
    EditFlagOfQuery("?edit", "", "");
    assert "?edit" + ['='] + "" + "" == "?edit=";
  }

  // ---------------------------------------------------------------------------
  // Values the header displays
  // ---------------------------------------------------------------------------

  /** The school name the header shows: undefined when the fold picked no entry. */
  function SchoolName(pick: EducationPick): Option<string> {
    if pick.Picked? then pick.education.schoolName else None
  }

  /** The company name the header shows: undefined when the fold stayed `null`. */
  function CompanyName(pick: Option<Experience>): Option<string> {
    if pick.Some? then pick.value.companyName else None
  }

  /** Followers plus following, with a fallback to 0 that never alters the sum. */
  function ConnectionCount(user: User): (n: nat)
    ensures n == |user.followers| + |user.following|
  {
    var sum := |user.followers| + |user.following|;
    if sum != 0 then sum else 0
  }

  // ---------------------------------------------------------------------------
  // The header's state
  // ---------------------------------------------------------------------------

  class ProfileHeader {
    /** `lastSchool` and `lastCompany`; `None` is `undefined`. */
    var lastSchool: Option<string>
    var lastCompany: Option<string>
    /** The dependency value each effect last ran with; `None` before its first run. */
    var recencyDeps: Option<Option<User>>
    var editDeps: Option<Option<string>>

    /** Both names start as the empty string; no effect has run. */
    constructor()
      ensures lastSchool == Some("") && lastCompany == Some("")
      ensures recencyDeps == None && editDeps == None
    {
      lastSchool, lastCompany := Some(""), Some("");
      recencyDeps, editDeps := None, None;
    }

    /**
     * The `[user]` effect: when the user changed and is present, the school becomes
     * the most recent education's and the company the most recent experience's
     * (undefined when the fold picked nothing); otherwise both names are kept.
     */
    method RecencyEffect(user: Option<User>, number: string -> Option<int>, date: string -> Option<int>)
      modifies this`lastSchool, this`lastCompany, this`recencyDeps
      ensures recencyDeps == Some(user)
      ensures old(recencyDeps) == Some(user) || user.None? ==>
              lastSchool == old(lastSchool) && lastCompany == old(lastCompany)
      ensures old(recencyDeps) != Some(user) && user.Some? ==>
              var es, xs := user.value.educations, user.value.experiences;
              ((forall j :: 0 <= j < |es| ==> YearScore(es[j], number) <= 0) ==> lastSchool == None) &&
              (forall k :: IsLatestEducation(es, k, number) ==> lastSchool == es[k].schoolName) &&
              ((forall j :: 0 <= j < |xs| ==> DateScore(xs[j], date) <= 0) ==> lastCompany == None) &&
              (forall k :: IsLatestExperience(xs, k, date) ==> lastCompany == xs[k].companyName)
    {
      if recencyDeps != Some(user) && user.Some? {
        var lastEducation := LastEducation(user.value.educations, number);
        var lastExperience := LastExperience(user.value.experiences, date);
        LastEducationIsLatest(user.value.educations, number);
        LastExperienceIsLatest(user.value.experiences, date);
        lastSchool := SchoolName(lastEducation);
        lastCompany := CompanyName(lastExperience);
      }
      recencyDeps := Some(user);
    }

    /**
     * The `[isEdit]` effect: asks the page to open the edit-intro overlay exactly
     * when the flag changed and is a non-empty string.
     */
    method EditEffect(search: string) returns (openModal: bool)
      modifies this`editDeps
      ensures editDeps == Some(EditFlag(search))
      ensures openModal <==> old(editDeps) != Some(EditFlag(search)) && OpensEditModal(search)
    {
      var isEdit := EditFlag(search);
      openModal := editDeps != Some(isEdit) && isEdit.Some? && isEdit.value != "";
      editDeps := Some(isEdit);
    }
  }
}
