/**
  The long-term memory the four shopping assistants share: a customer profile kept in one
  JSON file, loaded at start-up (or a default one for a first-time customer), rendered as
  text for the assistant, and extended with a "budget-conscious" preference when a query
  mentions a budget under $1000.
 */
module ProfileStore {
  import opened Wrappers
  import Lists
  import Text

  datatype Profile = Profile(
    name: string,
    preferences: seq<string>,
    pastPurchases: seq<string>,
    budgetHistory: seq<string>)

  /** `customer_profile.json`: absent, or holding the profile last written. */
  type ProfileFile = Option<Profile>

  /** The profile of a first-time customer. */
  const DefaultProfile := Profile(
    "Sarah",
    ["good camera", "long battery life"],
    ["iPhone 12 (2022)", "AirPods Pro (2023)"],
    ["$800-$1200"])

  /** `memory_manager_load_profile()`: the stored profile if the file exists, else the default. */
  function Load(file: ProfileFile): (p: Profile)
    ensures file.None? ==> p == DefaultProfile
  {
    file.GetOr(DefaultProfile)
  }

  /** `memory_manager_save_profile(profile)`: the file is overwritten with the whole profile. */
  function Save(file: ProfileFile, p: Profile): (file': ProfileFile)
    ensures Load(file') == p
    ensures file'.Some?
  {
    Some(p)
  }

  /** A later save replaces an earlier one entirely. */
  lemma SaveOverwrites(file: ProfileFile, p: Profile, q: Profile)
    ensures Save(Save(file, p), q) == Save(file, q)
    ensures Load(Save(Save(file, p), q)) == q
  {
  }

  /** The IndexError `budget_history[-1]` raises on an empty history. */
  datatype ProfileError = EmptyBudgetHistory

  /** Why a turn of a shopping loop ends the script: rendering the profile raised, or the call
      to the model did. */
  datatype TurnError<+E> = RenderFailed(reason: ProfileError) | ModelFailed(cause: E)

  /** `memory_manager_get_profile()`: four lines, preferences and purchases comma-joined, and
      the last budget. */
  function Format(p: Profile): (r: Result<string, ProfileError>)
    ensures r.Success? <==> |p.budgetHistory| > 0
  {
    if |p.budgetHistory| == 0 then Failure(EmptyBudgetHistory)
    else
      Success("Customer: " + p.name
        + "\nPreferences: " + Text.Join(", ", p.preferences)
        + "\nPast purchases: " + Text.Join(", ", p.pastPurchases)
        + "\nTypical budget: " + p.budgetHistory[|p.budgetHistory| - 1])
  }

  /** The rendered profile shows the name, every preference, every past purchase and the
      latest budget. */
  lemma FormatShowsProfile(p: Profile, i: nat, j: nat)
    requires |p.budgetHistory| > 0
    ensures Text.IsSubstring(p.name, Format(p).value)
    ensures i < |p.preferences| ==> Text.IsSubstring(p.preferences[i], Format(p).value)
    ensures j < |p.pastPurchases| ==> Text.IsSubstring(p.pastPurchases[j], Format(p).value)
    ensures Text.IsSubstring(p.budgetHistory[|p.budgetHistory| - 1], Format(p).value)
  {
    var prefs, buys := Text.Join(", ", p.preferences), Text.Join(", ", p.pastPurchases);
    var last := p.budgetHistory[|p.budgetHistory| - 1];
    var before := "Customer: " + p.name + "\nPreferences: ";
    var after := "\nPast purchases: " + buys + "\nTypical budget: " + last;
    var r := Format(p).value;
    assert r == "Customer: " + p.name + ("\nPreferences: " + prefs + after);
    Text.SubstringOfConcat("Customer: ", p.name, "\nPreferences: " + prefs + after);
    assert r == before + prefs + after;
    if i < |p.preferences| {
      Text.JoinContainsParts(", ", p.preferences, i);
      Text.SubstringExtend(p.preferences[i], before, prefs, after);
    }
    var head := before + prefs + "\nPast purchases: ";
    var tail := "\nTypical budget: " + last;
    assert r == head + buys + tail;
    if j < |p.pastPurchases| {
      Text.JoinContainsParts(", ", p.pastPurchases, j);
      Text.SubstringExtend(p.pastPurchases[j], head, buys, tail);
    }
    Text.SubstringOfConcat(head + buys + "\nTypical budget: ", last, "");
    assert r == head + buys + "\nTypical budget: " + last + "";
  }

  /** Only the latest budget is shown: earlier entries of the history make no difference. */
  lemma FormatUsesLastBudget(p: Profile, q: Profile)
    requires p.(budgetHistory := q.budgetHistory) == q
    requires |p.budgetHistory| > 0 && |q.budgetHistory| > 0
    requires p.budgetHistory[|p.budgetHistory| - 1] == q.budgetHistory[|q.budgetHistory| - 1]
    ensures Format(p) == Format(q)
  {
  }

  /** `memory_manager_store_preference(preference)` of the LangChain assistant: a preference
      already present changes nothing and is not saved; a new one is appended and the whole
      profile is saved. */
  function StorePreference(p: Profile, file: ProfileFile, preference: string): (r: (Profile, ProfileFile))
    ensures preference in r.0.preferences
    ensures p.preferences <= r.0.preferences
    ensures r.0 == p.(preferences := r.0.preferences)
    ensures preference in p.preferences ==> r == (p, file)
    ensures preference !in p.preferences ==>
      && r.0.preferences == p.preferences + [preference]
      && r.1 == Save(file, r.0)
  {
    if preference in p.preferences then (p, file)
    else
      var p' := p.(preferences := p.preferences + [preference]);
      (p', Save(file, p'))
  }

  /** Storing the same preference twice is storing it once. */
  lemma StorePreferenceIdempotent(p: Profile, file: ProfileFile, preference: string)
    ensures var (p1, f1) := StorePreference(p, file, preference);
      StorePreference(p1, f1, preference) == (p1, f1)
  {
  }

  /** A preference is never listed twice by `StorePreference` unless it already was. */
  lemma StorePreferenceNoDuplicates(p: Profile, file: ProfileFile, preference: string)
    ensures var (p1, _) := StorePreference(p, file, preference);
      Lists.Count(p1.preferences, preference) == if preference in p.preferences then Lists.Count(p.preferences, preference) else 1
  {
    if preference !in p.preferences {
      assert multiset(p.preferences)[preference] == 0;
      assert multiset(p.preferences + [preference]) == multiset(p.preferences) + multiset{preference};
    }
  }

  /** The inline update of the CrewAI, Google ADK and Agent Framework assistants: the
      preference is appended with no membership check, and the profile is saved. */
  function AppendPreference(p: Profile, file: ProfileFile, preference: string): (r: (Profile, ProfileFile))
    ensures r.0 == p.(preferences := r.0.preferences)
    ensures |r.0.preferences| == |p.preferences| + 1
    ensures r.0.preferences[..|p.preferences|] == p.preferences
    ensures r.0.preferences[|p.preferences|..] == [preference]
    ensures Load(r.1) == r.0
  {
    var p' := p.(preferences := p.preferences + [preference]);
    (p', Save(file, p'))
  }

  /** Every append adds one more copy, even of a preference already present. */
  lemma AppendPreferenceCounts(p: Profile, file: ProfileFile, preference: string)
    ensures var (p1, _) := AppendPreference(p, file, preference);
      Lists.Count(p1.preferences, preference) == Lists.Count(p.preferences, preference) + 1
  {
    var (p1, _) := AppendPreference(p, file, preference);
    assert p1.preferences == p.preferences + [preference];
    assert multiset(p.preferences + [preference]) == multiset(p.preferences) + multiset{preference};
  }

  const BudgetPreference := "budget-conscious"

  const BudgetPhrase := "under $1000"

  /** `"under $1000" in query.lower()`. */
  function BudgetTrigger(query: string): (b: bool)
    ensures b <==> Text.IsSubstring(BudgetPhrase, Text.Lower(query))
  {
    Text.Contains(Text.Lower(query), BudgetPhrase)
  }

  /** The test ignores letter case: a query and its lower-cased form trigger alike. */
  lemma BudgetTriggerIgnoresCase(query: string)
    ensures BudgetTrigger(Text.Lower(query)) == BudgetTrigger(query)
  {
    Text.LowerIdempotent(query);
  }

  /** How many of the queries trigger the budget preference. */
  function Triggers(queries: seq<string>): (n: nat)
    ensures n <= |queries|
    ensures n == 0 <==> forall i | 0 <= i < |queries| :: !BudgetTrigger(queries[i])
    decreases |queries|
  {
    if |queries| == 0 then 0
    else
      var n := Triggers(queries[..|queries| - 1]);
      assert forall i | 0 <= i < |queries| - 1 :: queries[..|queries| - 1][i] == queries[i];
      n + if BudgetTrigger(queries[|queries| - 1]) then 1 else 0
  }

  /** How a script records the budget preference: the LangChain assistant stores it only when
      it is new; the others append it every time. */
  datatype PreferenceUpdate = Store | Append

  /** The long-term memory after one query: a query that mentions a budget under $1000
      records "budget-conscious", any other leaves profile and file alone. */
  function Remember(p: Profile, file: ProfileFile, query: string, update: PreferenceUpdate): (r: (Profile, ProfileFile))
    ensures !BudgetTrigger(query) ==> r == (p, file)
    ensures BudgetTrigger(query) ==> BudgetPreference in r.0.preferences
    ensures r.0 == p.(preferences := r.0.preferences) && p.preferences <= r.0.preferences
  {
    if !BudgetTrigger(query) then (p, file)
    else if update == Store then StorePreference(p, file, BudgetPreference)
    else AppendPreference(p, file, BudgetPreference)
  }

  /** The long-term memory after a whole conversation, query by query. */
  function RememberAll(p: Profile, file: ProfileFile, queries: seq<string>, update: PreferenceUpdate): (r: (Profile, ProfileFile))
    ensures r.0 == p.(preferences := r.0.preferences) && p.preferences <= r.0.preferences
    decreases |queries|
  {
    if |queries| == 0 then (p, file)
    else
      var (p', file') := RememberAll(p, file, queries[..|queries| - 1], update);
      Remember(p', file', queries[|queries| - 1], update)
  }

  /** Peeling the last query off a conversation. */
  lemma RememberAllSnoc(p: Profile, file: ProfileFile, queries: seq<string>, query: string, update: PreferenceUpdate)
    ensures var (p', file') := RememberAll(p, file, queries, update);
      RememberAll(p, file, queries + [query], update) == Remember(p', file', query, update)
    ensures Triggers(queries + [query]) == Triggers(queries) + if BudgetTrigger(query) then 1 else 0
  {
    assert (queries + [query])[..|queries|] == queries;
  }

  /** Whatever the conversation, the file ends up holding the profile in memory, so the next
      session starts where this one stopped; a conversation without a budget query writes
      nothing. */
  lemma {:induction false} RememberAllPersists(p: Profile, file: ProfileFile, queries: seq<string>, update: PreferenceUpdate)
    requires Load(file) == p
    ensures var (p', file') := RememberAll(p, file, queries, update);
      && Load(file') == p'
      && (Triggers(queries) == 0 ==> file' == file && p' == p)
    decreases |queries|
  {
    if |queries| > 0 {
      var init, last := queries[..|queries| - 1], queries[|queries| - 1];
      assert queries == init + [last];
      RememberAllPersists(p, file, init, update);
      RememberAllSnoc(p, file, init, last, update);
    }
  }

  /** Once a query has mentioned the budget, "budget-conscious" stays among the preferences,
      and so in every rendering of the profile from then on. */
  lemma {:induction false} RememberedAfterTrigger(p: Profile, file: ProfileFile, queries: seq<string>, update: PreferenceUpdate, k: nat)
    requires k < |queries| && BudgetTrigger(queries[k])
    ensures BudgetPreference in RememberAll(p, file, queries, update).0.preferences
    ensures |p.budgetHistory| > 0 ==>
      Text.IsSubstring(BudgetPreference, Format(RememberAll(p, file, queries, update).0).value)
    decreases |queries|
  {
    var init, last := queries[..|queries| - 1], queries[|queries| - 1];
    assert queries == init + [last];
    RememberAllSnoc(p, file, init, last, update);
    var (p1, f1) := RememberAll(p, file, init, update);
    var p' := RememberAll(p, file, queries, update).0;
    if k < |init| {
      assert init[k] == queries[k];
      RememberedAfterTrigger(p, file, init, update, k);
      assert p1.preferences <= p'.preferences;
    }
    var i :| 0 <= i < |p'.preferences| && p'.preferences[i] == BudgetPreference;
    if |p.budgetHistory| > 0 {
      FormatShowsProfile(p', i, 0);
    }
  }

  /** Appending: every budget query adds one copy of "budget-conscious", duplicates included. */
  lemma {:induction false} AppendAllCounts(p: Profile, file: ProfileFile, queries: seq<string>)
    ensures var (p', _) := RememberAll(p, file, queries, Append);
      && |p'.preferences| == |p.preferences| + Triggers(queries)
      && Lists.Count(p'.preferences, BudgetPreference) == Lists.Count(p.preferences, BudgetPreference) + Triggers(queries)
    decreases |queries|
  {
    if |queries| > 0 {
      var init, last := queries[..|queries| - 1], queries[|queries| - 1];
      assert queries == init + [last];
      AppendAllCounts(p, file, init);
      RememberAllSnoc(p, file, init, last, Append);
      var (p1, f1) := RememberAll(p, file, init, Append);
      AppendPreferenceCounts(p1, f1, BudgetPreference);
    }
  }

  /** Storing: "budget-conscious" is added at most once, however many budget queries come. */
  lemma {:induction false} StoreAllCounts(p: Profile, file: ProfileFile, queries: seq<string>)
    ensures var (p', _) := RememberAll(p, file, queries, Store);
      Lists.Count(p'.preferences, BudgetPreference) ==
        if BudgetPreference in p.preferences then Lists.Count(p.preferences, BudgetPreference)
        else if Triggers(queries) > 0 then 1
        else 0
    decreases |queries|
  {
    if |queries| > 0 {
      var init, last := queries[..|queries| - 1], queries[|queries| - 1];
      assert queries == init + [last];
      StoreAllCounts(p, file, init);
      RememberAllSnoc(p, file, init, last, Store);
      var (p1, f1) := RememberAll(p, file, init, Store);
      StorePreferenceNoDuplicates(p1, f1, BudgetPreference);
      if BudgetPreference !in p.preferences && Triggers(init) == 0 {
        assert Lists.Count(p1.preferences, BudgetPreference) == 0;
      }
      if BudgetPreference in p.preferences || Triggers(init) > 0 {
        assert Lists.Count(p1.preferences, BudgetPreference) > 0;
        assert BudgetPreference in multiset(p1.preferences);
      }
    }
  }

  /** A query without a dollar sign never mentions a budget under $1000. */
  lemma NoDollarNoTrigger(query: string)
    requires forall k | 0 <= k < |query| :: query[k] != '$'
    ensures !BudgetTrigger(query)
  {
    var lower := Text.Lower(query);
    forall i: nat | i + |BudgetPhrase| <= |lower|
      ensures !Text.OccursAt(BudgetPhrase, lower, i)
    {
      assert lower[i + 6] == Text.LowerChar(query[i + 6]) != '$';
      assert lower[i..i + |BudgetPhrase|][6] == lower[i + 6];
    }
  }

  /** The same, for a query written in two pieces. */
  lemma NoDollarPiecesNoTrigger(a: string, b: string)
    requires forall k | 0 <= k < |a| :: a[k] != '$'
    requires forall k | 0 <= k < |b| :: b[k] != '$'
    ensures !BudgetTrigger(a + b)
  {
    assert forall k | 0 <= k < |a + b| :: (a + b)[k] == if k < |a| then a[k] else b[k - |a|];
    NoDollarNoTrigger(a + b);
  }

  /** A query whose second piece opens with the phrase, in lower case, mentions the budget. */
  lemma PhraseTrigger(a: string, b: string)
    requires |b| >= |BudgetPhrase| && b[..|BudgetPhrase|] == BudgetPhrase
    ensures BudgetTrigger(a + b)
  {
    var lower := Text.Lower(a + b);
    forall k | 0 <= k < |BudgetPhrase|
      ensures lower[|a| + k] == BudgetPhrase[k]
    {
      assert (a + b)[|a| + k] == b[k] == BudgetPhrase[k];
    }
    assert lower[|a|..|a| + |BudgetPhrase|] == BudgetPhrase;
    assert Text.OccursAt(BudgetPhrase, lower, |a|);
  }

  /** Counting one more query. */
  lemma TriggersSnoc(queries: seq<string>, query: string)
    ensures Triggers(queries + [query]) == Triggers(queries) + if BudgetTrigger(query) then 1 else 0
  {
    assert (queries + [query])[..|queries|] == queries;
  }

  const NewPhoneLead := "I need a "
  const NewPhoneRest := "new phone"
  const UsualBudgetLead := "What's my budget "
  const UsualBudgetRest := "usually?"
  const UnderBudgetLead := "I want something "
  const UnderBudgetRest := "under $1000 this time"
  const CameraLead := "Does it have a good camera "
  const CameraRest := "like my preferences show?"

  /** The four queries every shopping script sends. */
  const DemoQueries := [NewPhoneLead + NewPhoneRest, UsualBudgetLead + UsualBudgetRest, UnderBudgetLead + UnderBudgetRest, CameraLead + CameraRest]

  lemma NewPhoneIsQuiet()
    ensures !BudgetTrigger(NewPhoneLead + NewPhoneRest)
  {
    NoDollarPiecesNoTrigger(NewPhoneLead, NewPhoneRest);
  }

  lemma UsualBudgetIsQuiet()
    ensures !BudgetTrigger(UsualBudgetLead + UsualBudgetRest)
  {
    NoDollarPiecesNoTrigger(UsualBudgetLead, UsualBudgetRest);
  }

  lemma CameraIsQuiet()
    ensures !BudgetTrigger(CameraLead + CameraRest)
  {
    NoDollarPiecesNoTrigger(CameraLead, CameraRest);
  }

  /** Of the demo queries, only the third mentions a budget under $1000. */
  lemma DemoTriggers()
    ensures !BudgetTrigger(DemoQueries[0]) && !BudgetTrigger(DemoQueries[1])
    ensures BudgetTrigger(DemoQueries[2]) && !BudgetTrigger(DemoQueries[3])
  {
    NewPhoneIsQuiet();
    UsualBudgetIsQuiet();
    CameraIsQuiet();
    PhraseTrigger(UnderBudgetLead, UnderBudgetRest);
  }

  /** Four queries of which only the third mentions a budget count as one trigger. */
  lemma ThirdOfFourTriggers(q: seq<string>)
    requires |q| == 4 && !BudgetTrigger(q[0]) && !BudgetTrigger(q[1])
    requires BudgetTrigger(q[2]) && !BudgetTrigger(q[3])
    ensures Triggers(q) == 1
  {
    TriggersSnoc([], q[0]);
    TriggersSnoc(q[..1], q[1]);
    TriggersSnoc(q[..2], q[2]);
    TriggersSnoc(q[..3], q[3]);
    assert [] + [q[0]] == q[..1] && q[..1] + [q[1]] == q[..2];
    assert q[..2] + [q[2]] == q[..3] && q[..3] + [q[3]] == q;
  }

  /** So a demo session records the budget preference exactly once. */
  lemma DemoTriggerCount()
    ensures Triggers(DemoQueries) == 1
  {
    DemoTriggers();
    ThirdOfFourTriggers(DemoQueries);
  }

  /** A budget query on a profile without the budget preference adds it, whichever way the
      script records it, and saves the result. */
  lemma RememberNewBudget(p: Profile, file: ProfileFile, query: string, update: PreferenceUpdate)
    requires BudgetTrigger(query) && BudgetPreference !in p.preferences
    ensures var p' := p.(preferences := p.preferences + [BudgetPreference]);
      Remember(p, file, query, update) == (p', Save(file, p'))
  {
  }

  /** Over four queries of which only the third mentions a budget, a profile without the
      budget preference gains it once and is saved. */
  lemma ThirdOfFourRemembers(p: Profile, file: ProfileFile, q: seq<string>, update: PreferenceUpdate)
    requires |q| == 4 && !BudgetTrigger(q[0]) && !BudgetTrigger(q[1])
    requires BudgetTrigger(q[2]) && !BudgetTrigger(q[3])
    requires BudgetPreference !in p.preferences
    ensures var p' := p.(preferences := p.preferences + [BudgetPreference]);
      RememberAll(p, file, q, update) == (p', Save(file, p'))
  {
    var p' := p.(preferences := p.preferences + [BudgetPreference]);
    RememberAllSnoc(p, file, [], q[0], update);
    assert [] + [q[0]] == q[..1];
    assert RememberAll(p, file, q[..1], update) == (p, file);
    RememberAllSnoc(p, file, q[..1], q[1], update);
    assert q[..1] + [q[1]] == q[..2];
    assert RememberAll(p, file, q[..2], update) == (p, file);
    RememberAllSnoc(p, file, q[..2], q[2], update);
    assert q[..2] + [q[2]] == q[..3];
    RememberNewBudget(p, file, q[2], update);
    assert RememberAll(p, file, q[..3], update) == (p', Save(file, p'));
    RememberAllSnoc(p, file, q[..3], q[3], update);
    assert q[..3] + [q[3]] == q;
  }

  /** A demo session over a profile without the budget preference, whichever way the script
      records it, adds it once and saves the result. */
  lemma DemoRemembers(p: Profile, file: ProfileFile, update: PreferenceUpdate)
    requires BudgetPreference !in p.preferences
    ensures var p' := p.(preferences := p.preferences + [BudgetPreference]);
      RememberAll(p, file, DemoQueries, update) == (p', Save(file, p'))
  {
    DemoTriggers();
    ThirdOfFourRemembers(p, file, DemoQueries, update);
  }

  /** A first run, with no profile file yet, leaves Sarah's profile with "budget-conscious"
      added in the file. */
  lemma FirstRunRemembers(update: PreferenceUpdate)
    ensures var p := DefaultProfile.(preferences := DefaultProfile.preferences + [BudgetPreference]);
      RememberAll(DefaultProfile, None, DemoQueries, update) == (p, Some(p))
  {
    assert BudgetPreference != DefaultProfile.preferences[0] && BudgetPreference != DefaultProfile.preferences[1];
    DemoRemembers(DefaultProfile, None, update);
  }
}

