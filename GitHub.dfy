/**
 * Username validation and the post-processing of the contribution calendar
 * (src/app/lib/github.ts). The GraphQL request itself is an input: the model
 * receives what the request produced.
 */
module GitHub {

  import opened Wrappers

  datatype ContributionDay = ContributionDay(contributionCount: nat, date: string)

  datatype Week = Week(contributionDays: seq<ContributionDay>)

  /** `data.user`: the display name and the calendar's weeks, oldest first. */
  datatype User = User(name: string, weeks: seq<Week>)

  /**
   * The outcome of the GraphQL POST: either it threw (network failure, an error
   * status, a body without `data`), or it answered with `data.user`, which is
   * null for an unknown login.
   */
  datatype ApiResponse = RequestFailed | Answered(user: Option<User>)

  datatype UserDetails = UserDetails(contributions: seq<ContributionDay>, name: string)

  /** `Promise<UserDetails | string>` once settled: the details or a message for the user. */
  datatype FetchOutcome = Details(details: UserDetails) | Message(text: string)

  /** A call of `getGitHubContributions`: its promise is rejected or resolves to an outcome. */
  datatype Call = Rejected(error: string) | Resolved(outcome: FetchOutcome)

  const UnknownUserMessage: string := "Can't fetch any contribution. Please check your username \U{1F62C}"
  const FetchErrorMessage: string := "Error fetching GitHub contributions. Please try again later."
  const InvalidUsernameMessage: string := "Invalid GitHub username format"
  const DefaultDays: int := 365

  // ---------------------------------------------------------------------------
  // validateGitHubUsername: /^[a-z\d](?:[a-z\d]|-(?=[a-z\d])){0,38}$/i

  /**
   * Case folding of the regular-expression engine in ignore-case mode without the
   * `u` flag, for what it matters here: ASCII lower-case letters fold to upper case,
   * and no character outside ASCII folds onto an ASCII letter.
   */
  function Canonicalize(c: char): char {
    if 'a' <= c <= 'z' then (c as int - 32) as char else c
  }

  /** The character class `[a-z\d]` under the `i` flag. */
  predicate ClassMatches(c: char) {
    var u := Canonicalize(c);
    'A' <= u <= 'Z' || '0' <= u <= '9'
  }

  /** One iteration of the group `(?:[a-z\d]|-(?=[a-z\d]))` at position i. */
  predicate GroupMatchesAt(s: string, i: nat)
    requires i < |s|
  {
    ClassMatches(s[i]) || (s[i] == '-' && i + 1 < |s| && ClassMatches(s[i + 1]))
  }

  /**
   * `(?:...){0,k}$` from position i. Each iteration consumes one character, so
   * the greedy repetition followed by `$` succeeds exactly when the rest of the
   * input is at most k iterations long.
   */
  predicate RepetitionMatches(s: string, i: nat, k: nat)
    requires i <= |s|
    decreases |s| - i
  {
    i == |s| || (0 < k && GroupMatchesAt(s, i) && RepetitionMatches(s, i + 1, k - 1))
  }

  /** `githubUsernameRegex.test(s)`. */
  predicate RegexTest(s: string) {
    0 < |s| && ClassMatches(s[0]) && RepetitionMatches(s, 1, 38)
  }

  predicate IsAsciiAlnum(c: char) { 'a' <= c <= 'z' || 'A' <= c <= 'Z' || '0' <= c <= '9' }

  /** The username rules stated character by character. */
  predicate UsernameRules(s: string) {
    && 1 <= |s| <= 39
    && IsAsciiAlnum(s[0])
    && (forall i :: 0 <= i < |s| ==> IsAsciiAlnum(s[i]) || s[i] == '-')
    && (forall i :: 0 <= i < |s| && s[i] == '-' ==> i + 1 < |s| && IsAsciiAlnum(s[i + 1]))
  }

  /** A username is accepted exactly when it follows the character rules. */
  function ValidateGitHubUsername(username: string): (valid: bool)
    ensures valid <==> UsernameRules(username)
  {
    RegexTestMeaning(username);
    RegexTest(username)
  }

  lemma {:induction false} RepetitionMatchesMeaning(s: string, i: nat, k: nat)
    requires i <= |s|
    ensures RepetitionMatches(s, i, k) <==> |s| - i <= k && forall j :: i <= j < |s| ==> GroupMatchesAt(s, j)
    decreases |s| - i
  {
    if i < |s| {
      RepetitionMatchesMeaning(s, i + 1, if k == 0 then 0 else k - 1);
    }
  }

  lemma ClassMatchesAlnum(c: char)
    ensures ClassMatches(c) <==> IsAsciiAlnum(c)
  {
  }

  lemma RegexTestMeaning(s: string)
    ensures RegexTest(s) <==> UsernameRules(s)
  {
    if 0 < |s| {
      RepetitionMatchesMeaning(s, 1, 38);
      if RegexTest(s) {
        forall i | 0 <= i < |s|
          ensures IsAsciiAlnum(s[i]) || s[i] == '-'
        {
          if i > 0 { assert GroupMatchesAt(s, i); }
          ClassMatchesAlnum(s[i]);
        }
        forall i | 0 <= i < |s| && s[i] == '-'
          ensures i + 1 < |s| && IsAsciiAlnum(s[i + 1])
        {
          ClassMatchesAlnum(s[0]);
          assert i > 0;
          assert GroupMatchesAt(s, i);
          ClassMatchesAlnum(s[i + 1]);
        }
      }
      if UsernameRules(s) {
        forall j | 1 <= j < |s|
          ensures GroupMatchesAt(s, j)
        {
          ClassMatchesAlnum(s[j]);
          if j + 1 < |s| { ClassMatchesAlnum(s[j + 1]); }
        }
        ClassMatchesAlnum(s[0]);
      }
    }
  }

  // ---------------------------------------------------------------------------
  // fetchContributions: flatten, relabel, pop, splice

  /** All days of all weeks, week by week and day by day. */
  function Flatten(weeks: seq<Week>): (days: seq<ContributionDay>)
  {
    if weeks == [] then []
    else Flatten(weeks[..|weeks| - 1]) + weeks[|weeks| - 1].contributionDays
  }

  /** The number of days in the weeks before week w. */
  function DaysBefore(weeks: seq<Week>, w: nat): nat
    requires w <= |weeks|
  {
    if w == 0 then 0 else DaysBefore(weeks, w - 1) + |weeks[w - 1].contributionDays|
  }

  lemma {:induction false} DaysBeforePrefix(weeks: seq<Week>, front: seq<Week>, w: nat)
    requires w <= |front| <= |weeks| && front == weeks[..|front|]
    ensures DaysBefore(front, w) == DaysBefore(weeks, w)
  {
    if w > 0 {
      DaysBeforePrefix(weeks, front, w - 1);
    }
  }

  /** The flattened list is as long as all weeks together. */
  lemma {:induction false} FlattenLength(weeks: seq<Week>)
    ensures |Flatten(weeks)| == DaysBefore(weeks, |weeks|)
  {
    if weeks != [] {
      var front := weeks[..|weeks| - 1];
      FlattenLength(front);
      DaysBeforePrefix(weeks, front, |front|);
    }
  }

  /** Day d of week w is at position DaysBefore(weeks, w) + d of the flattened list. */
  lemma {:induction false} FlattenAt(weeks: seq<Week>, w: nat, d: nat)
    requires w < |weeks| && d < |weeks[w].contributionDays|
    ensures DaysBefore(weeks, w) + d < |Flatten(weeks)|
    ensures Flatten(weeks)[DaysBefore(weeks, w) + d] == weeks[w].contributionDays[d]
  {
    var front := weeks[..|weeks| - 1];
    FlattenLength(front);
    DaysBeforePrefix(weeks, front, w);
    if w < |weeks| - 1 {
      FlattenAt(front, w, d);
    } else {
      DaysBeforePrefix(weeks, front, |front|);
    }
  }

  /** `contributionDay.date = moment(...).date().toString()` on every day; counts are kept. */
  function Relabel(days: seq<ContributionDay>, dayOfMonth: string -> string): (out: seq<ContributionDay>)
    ensures |out| == |days|
  {
    if days == [] then []
    else Relabel(days[..|days| - 1], dayOfMonth) + [days[|days| - 1].(date := dayOfMonth(days[|days| - 1].date))]
  }

  /** Relabelling keeps every count and rewrites only the date. */
  lemma {:induction false} RelabelKeepsCounts(days: seq<ContributionDay>, dayOfMonth: string -> string, i: nat)
    requires i < |days|
    ensures Relabel(days, dayOfMonth)[i] == days[i].(date := dayOfMonth(days[i].date))
  {
    if i < |days| - 1 {
      RelabelKeepsCounts(days[..|days| - 1], dayOfMonth, i);
    }
  }

  lemma {:induction false} RelabelAppend(a: seq<ContributionDay>, b: seq<ContributionDay>, dayOfMonth: string -> string)
    ensures Relabel(a + b, dayOfMonth) == Relabel(a, dayOfMonth) + Relabel(b, dayOfMonth)
  {
    if b != [] {
      var front := b[..|b| - 1];
      RelabelAppend(a, front, dayOfMonth);
      assert (a + b)[..|a + b| - 1] == a + front;
      assert (a + b)[|a + b| - 1] == b[|b| - 1];
    } else {
      assert a + b == a;
    }
  }

  /** `if (last.contributionCount === 0) contributions.pop()`. */
  function PopTrailingZero(days: seq<ContributionDay>): seq<ContributionDay>
    requires days != []
  {
    if days[|days| - 1].contributionCount == 0 then days[..|days| - 1] else days
  }

  /** `Array.prototype.splice(0, deleteCount)`: the count is clamped into [0, length]. */
  function SpliceFront(days: seq<ContributionDay>, deleteCount: int): seq<ContributionDay>
  {
    days[if deleteCount < 0 then 0 else if deleteCount > |days| then |days| else deleteCount..]
  }

  /** The default window: drop a trailing zero day, then keep the last `days` entries. */
  function TrimToWindow(all: seq<ContributionDay>, days: int): seq<ContributionDay>
    requires all != []
  {
    var popped := PopTrailingZero(all);
    SpliceFront(popped, |popped| - days)
  }

  /** JavaScript truthiness of an optional string argument. */
  predicate Truthy(arg: Option<string>) { arg.Some? && arg.value != "" }

  /** What `fetchContributions` resolves to, given what the request produced. */
  function FetchResult(days: int, customFromDate: Option<string>, customToDate: Option<string>,
                       response: ApiResponse, dayOfMonth: string -> string): FetchOutcome
  {
    match response
    case RequestFailed => Message(FetchErrorMessage)
    case Answered(None) => Message(UnknownUserMessage)
    case Answered(Some(user)) =>
      var all := Relabel(Flatten(user.weeks), dayOfMonth);
      if Truthy(customFromDate) && Truthy(customToDate) then Details(UserDetails(all, user.name))
      // `contributions[length - 1]` is undefined for an empty list: reading its count throws
      else if all == [] then Message(FetchErrorMessage)
      else Details(UserDetails(TrimToWindow(all, days), user.name))
  }

  /**
   * The default window is the last min(n', days) days of the list after the pop
   * (none when days <= 0), in their original order: a suffix, never padded.
   */
  lemma TrimToWindowIsSuffix(all: seq<ContributionDay>, days: int)
    requires all != []
    ensures var popped := PopTrailingZero(all);
            var keep := if days <= 0 then 0 else if days < |popped| then days else |popped|;
            TrimToWindow(all, days) == popped[|popped| - keep..]
    ensures |TrimToWindow(all, days)| <= |all|
  {
  }

  /** The pop removes one day exactly when the last day has no contributions. */
  lemma PopRemovesOnlyTrailingZero(all: seq<ContributionDay>)
    requires all != []
    ensures all[|all| - 1].contributionCount == 0 ==> PopTrailingZero(all) + [all[|all| - 1]] == all
    ensures all[|all| - 1].contributionCount != 0 ==> PopTrailingZero(all) == all
  {
  }

  /** With both custom dates given, every day of every week is returned, nothing dropped. */
  lemma CustomRangeKeepsEveryDay(days: int, from: string, to: string, user: User, dayOfMonth: string -> string)
    requires from != "" && to != ""
    ensures FetchResult(days, Some(from), Some(to), Answered(Some(user)), dayOfMonth).Details?
    ensures var got := FetchResult(days, Some(from), Some(to), Answered(Some(user)), dayOfMonth).details;
            got.name == user.name && |got.contributions| == DaysBefore(user.weeks, |user.weeks|)
    ensures FetchResult(days, Some(from), Some(to), Answered(Some(user)), dayOfMonth)
            == Details(UserDetails(Relabel(Flatten(user.weeks), dayOfMonth), user.name))
  {
    FlattenLength(user.weeks);
  }

  /** In the default mode an empty calendar is reported as a fetch error. */
  lemma EmptyCalendarIsAnError(days: int, name: string, weeks: seq<Week>, dayOfMonth: string -> string)
    requires forall w :: w in weeks ==> w.contributionDays == []
    ensures FetchResult(days, None, None, Answered(Some(User(name, weeks))), dayOfMonth) == Message(FetchErrorMessage)
  {
    EmptyWeeksFlattenToNothing(weeks);
  }

  lemma {:induction false} EmptyWeeksFlattenToNothing(weeks: seq<Week>)
    requires forall w :: w in weeks ==> w.contributionDays == []
    ensures Flatten(weeks) == []
  {
    if weeks != [] {
      EmptyWeeksFlattenToNothing(weeks[..|weeks| - 1]);
    }
  }

  class Fetcher {
    const username: string

    constructor (username: string)
      ensures this.username == username
    {
      this.username := username;
    }

    /**
     * `fetchContributions(days, customFromDate, customToDate)`, where `response`
     * is what the GraphQL request for this user produced and `dayOfMonth` is the
     * moment-based date rewrite.
     */
    method FetchContributions(days: int, customFromDate: Option<string>, customToDate: Option<string>,
                              response: ApiResponse, dayOfMonth: string -> string)
      returns (result: FetchOutcome)
      ensures result == FetchResult(days, customFromDate, customToDate, response, dayOfMonth)
    {
      if response.RequestFailed? {
        return Message(FetchErrorMessage);
      }
      if response.user.None? {
        return Message(UnknownUserMessage);
      }
      var user := response.user.value;
      var contributions := CollectDays(user.weeks, dayOfMonth);
      if !(Truthy(customFromDate) && Truthy(customToDate)) {
        var length := |contributions|;
        if length == 0 {
          // `contributions[length - 1].contributionCount` throws; the catch answers with the generic message
          return Message(FetchErrorMessage);
        }
        ghost var all := contributions;
        if contributions[length - 1].contributionCount == 0 {
          contributions := contributions[..length - 1];
        }
        assert contributions == PopTrailingZero(all);
        var extra := |contributions| - days;
        var deleteCount := if extra < 0 then 0 else if extra > |contributions| then |contributions| else extra;
        contributions := contributions[deleteCount..];
        assert contributions == TrimToWindow(all, days);
      }
      return Details(UserDetails(contributions, user.name));
    }
  }

  /**
   * The nested `forEach` over weeks and their days: every day in order, its date
   * rewritten to the day of the month.
   */
  method CollectDays(weeks: seq<Week>, dayOfMonth: string -> string) returns (contributions: seq<ContributionDay>)
    ensures contributions == Relabel(Flatten(weeks), dayOfMonth)
  {
    contributions := [];
    var w := 0;
    while w < |weeks|
      invariant 0 <= w <= |weeks|
      invariant contributions == Relabel(Flatten(weeks[..w]), dayOfMonth)
    {
      var week := weeks[w];
      var d := 0;
      while d < |week.contributionDays|
        invariant 0 <= d <= |week.contributionDays|
        invariant contributions == Relabel(Flatten(weeks[..w]), dayOfMonth) + Relabel(week.contributionDays[..d], dayOfMonth)
      {
        var day := week.contributionDays[d];
        day := day.(date := dayOfMonth(day.date));
        assert week.contributionDays[..d + 1][..d] == week.contributionDays[..d];
        contributions := contributions + [day];
        d := d + 1;
      }
      assert week.contributionDays[..d] == week.contributionDays;
      assert weeks[..w + 1][..w] == weeks[..w];
      RelabelAppend(Flatten(weeks[..w]), week.contributionDays, dayOfMonth);
      w := w + 1;
    }
    assert weeks[..w] == weeks;
  }

  /**
   * `getGitHubContributions(username, days = 365)`: an invalid username rejects
   * the promise before any Fetcher exists; otherwise the default-window fetch runs.
   */
  method GetGitHubContributions(username: string, response: ApiResponse, dayOfMonth: string -> string,
                                days: int := DefaultDays)
    returns (call: Call)
    ensures !UsernameRules(username) ==> call == Rejected(InvalidUsernameMessage)
    ensures UsernameRules(username) ==> call == Resolved(FetchResult(days, None, None, response, dayOfMonth))
  {
    if !ValidateGitHubUsername(username) {
      return Rejected(InvalidUsernameMessage);
    }
    var fetcher := new Fetcher(username);
    var outcome := fetcher.FetchContributions(days, None, None, response, dayOfMonth);
    return Resolved(outcome);
  }
}
