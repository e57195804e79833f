/**
 * The platform settings page: a key/value store laid over built-in
 * defaults, the edits of its inputs, the save that writes one row per key
 * and stops at the first error, and the earnings summary under the form.
 */
module AdminSettings {
  import opened Common
  import Fixtures

  /** A setting's value, as JSON holds it. Numbers are exact decimals here. */
  datatype Value = Number(x: real) | Flag(b: bool) | Text(s: string)

  type Settings = map<string, Value>

  const MAX_REFERRALS: string := "max_referrals"
  const MIN_WITHDRAWAL: string := "min_withdrawal"
  const QUIZ_REWARD: string := "quiz_reward"
  const REFERRAL_REWARD: string := "referral_reward"
  const WELCOME_BONUS: string := "welcome_bonus"
  const COMPLETION_MESSAGE: string := "completion_message"
  const APPOINTMENT_ENABLED: string := "appointment_enabled"
  const SUPPORT_WHATSAPP_NUMBER: string := "support_whatsapp_number"

  /** The keys of the form, in the order the settings object declares them. */
  const KEYS: seq<string> := [MAX_REFERRALS, MIN_WITHDRAWAL, QUIZ_REWARD, REFERRAL_REWARD,
                              WELCOME_BONUS, COMPLETION_MESSAGE, APPOINTMENT_ENABLED, SUPPORT_WHATSAPP_NUMBER]

  /** The form declares exactly the keys of its defaults. */
  lemma KeysOfDefaults()
    ensures forall k :: k in DEFAULTS <==> k in KEYS
    ensures |KEYS| == 8
  {
  }

  /** The values the page starts from. */
  const DEFAULTS: Settings := map[
    MAX_REFERRALS := Number(3.0),
    MIN_WITHDRAWAL := Number(50.0),
    QUIZ_REWARD := Number(7.15),
    REFERRAL_REWARD := Number(20.0),
    WELCOME_BONUS := Number(15.0),
    COMPLETION_MESSAGE := Text(""),
    APPOINTMENT_ENABLED := Flag(true),
    SUPPORT_WHATSAPP_NUMBER := Text("")]

  /**
   * A stored `value` column: a string, with what `JSON.parse` makes of it
   * (`None` when it throws), or a value stored as is.
   */
  datatype Stored = Encoded(text: string, parsed: Option<Value>) | Plain(v: Value)

  datatype Row = Row(key: string, value: Stored)

  /** The value `fetchSettings` keeps for a row: the parsed text, else the raw text. */
  function Decode(s: Stored): (v: Value)
    ensures s.Encoded? && s.parsed.None? ==> v == Text(s.text)
    ensures s.Encoded? && s.parsed.Some? ==> v == s.parsed.value
    ensures s.Plain? ==> v == s.v
  {
    match s
    case Encoded(text, parsed) => if parsed.Some? then parsed.value else Text(text)
    case Plain(v) => v
  }

  /** The map the `forEach` over the fetched rows builds: a later row with the same key wins. */
  function Collect(rows: seq<Row>): Settings
    decreases |rows|
  {
    if |rows| == 0 then map[]
    else Collect(rows[..|rows| - 1])[rows[|rows| - 1].key := Decode(rows[|rows| - 1].value)]
  }

  /** A key is collected exactly when some row has it. */
  lemma {:induction false} CollectHasKey(rows: seq<Row>, k: string)
    ensures k in Collect(rows) <==> exists i :: 0 <= i < |rows| && rows[i].key == k
    decreases |rows|
  {
    if |rows| > 0 {
      var init := rows[..|rows| - 1];
      CollectHasKey(init, k);
      assert forall i :: 0 <= i < |init| ==> init[i] == rows[i];
    }
  }

  /** A collected key holds the value of the last row with that key. */
  lemma {:induction false} CollectHasLastRow(rows: seq<Row>, k: string)
    requires k in Collect(rows)
    ensures exists i :: (0 <= i < |rows| && rows[i].key == k
      && Collect(rows)[k] == Decode(rows[i].value)
      && forall j :: i < j < |rows| ==> rows[j].key != k)
    decreases |rows|
  {
    var init := rows[..|rows| - 1];
    var last := rows[|rows| - 1];
    if last.key != k {
      CollectHasLastRow(init, k);
      var i :| 0 <= i < |init| && init[i].key == k && Collect(init)[k] == Decode(init[i].value)
        && forall j :: i < j < |init| ==> init[j].key != k;
      assert rows[i] == init[i];
      assert forall j :: i < j < |rows| - 1 ==> rows[j] == init[j];
    } else {
      assert Collect(rows)[k] == Decode(rows[|rows| - 1].value);
    }
  }

  /** `{ ...prev, ...settingsMap }`: every fetched key overrides, every other key stays. */
  function Merge(prev: Settings, fetched: Settings): (r: Settings)
    ensures r.Keys == prev.Keys + fetched.Keys
    ensures forall k :: k in fetched ==> r[k] == fetched[k]
    ensures forall k :: k in prev && k !in fetched ==> r[k] == prev[k]
  {
    map k | k in prev.Keys + fetched.Keys :: if k in fetched then fetched[k] else prev[k]
  }

  /** Merging with nothing fetched keeps the settings; merging twice is merging once. */
  lemma MergeLaws(prev: Settings, fetched: Settings)
    ensures Merge(prev, map[]) == prev
    ensures Merge(Merge(prev, fetched), fetched) == Merge(prev, fetched)
  {
  }

  /** What an input reports: a number field's `parseFloat` (`None` for NaN), a checkbox, or text. */
  datatype Input = NumberInput(parsed: Option<real>) | Checkbox(checked: bool) | TextInput(text: string)

  /** The value `handleInputChange` stores: `parseFloat(value) || 0`, the checked state, or the text. */
  function Coerce(input: Input): (v: Value)
    ensures input.NumberInput? ==> v == Number(if input.parsed.Some? then input.parsed.value else 0.0)
    ensures input.Checkbox? ==> v == Flag(input.checked)
    ensures input.TextInput? ==> v == Text(input.text)
  {
    match input
    case NumberInput(parsed) => Number(if parsed.Some? then parsed.value else 0.0)
    case Checkbox(checked) => Flag(checked)
    case TextInput(text) => Text(text)
  }

  /** One row `handleSave` upserts (the JSON text of the value is not modelled). */
  datatype Upsert = Upsert(key: string, value: Value)

  /** The upserts for the keys in order, as `Object.entries(settings).map(...)` lists them. */
  function Updates(settings: Settings, order: seq<string>): (r: seq<Upsert>)
    requires forall i :: 0 <= i < |order| ==> order[i] in settings
    ensures |r| == |order|
    ensures forall i :: 0 <= i < |order| ==> r[i] == Upsert(order[i], settings[order[i]])
  {
    seq(|order|, i requires 0 <= i < |order| => Upsert(order[i], settings[order[i]]))
  }

  /**
   * `order` lists the keys of `settings` as `Object.entries` does: every key
   * once, and nothing else.
   */
  predicate KeyOrder(settings: Settings, order: seq<string>) {
    (forall k :: k in settings ==> k in order)
    && (forall i :: 0 <= i < |order| ==> order[i] in settings)
    && (forall i, j :: 0 <= i < j < |order| ==> order[i] != order[j])
  }

  class Page {
    var settings: Settings
    var saved: bool

    /** Every key of the form has a value. */
    ghost predicate Valid()
      reads this
    {
      forall k :: k in DEFAULTS ==> k in settings
    }

    constructor ()
      ensures Valid()
      ensures settings == DEFAULTS && !saved
    {
      settings := DEFAULTS;
      saved := false;
    }

    /**
     * `fetchSettings`: the rows (`None` on a query error) are collected one
     * by one and merged over the current settings.
     */
    method Fetch(rows: Option<seq<Row>>)
      requires Valid()
      modifies this
      ensures Valid()
      ensures settings == if rows.Some? then Merge(old(settings), Collect(rows.value)) else old(settings)
      ensures saved == old(saved)
    {
      if rows.Some? {
        var fetched: Settings := map[];
        var i := 0;
        while i < |rows.value|
          invariant 0 <= i <= |rows.value|
          invariant fetched == Collect(rows.value[..i])
        {
          assert rows.value[..i + 1][..i] == rows.value[..i];
          fetched := fetched[rows.value[i].key := Decode(rows.value[i].value)];
          i := i + 1;
        }
        assert rows.value[..i] == rows.value;
        settings := Merge(settings, fetched);
      }
    }

    /** `handleInputChange` on the input named `name`: only that key changes. */
    method InputChange(name: string, input: Input)
      requires Valid()
      modifies this
      ensures Valid()
      ensures settings == old(settings)[name := Coerce(input)]
      ensures forall k :: k in old(settings) && k != name ==> settings[k] == old(settings)[k]
      ensures saved == old(saved)
    {
      settings := settings[name := Coerce(input)];
    }

    /**
     * `handleSave`: one upsert per key, in the object's key order `order`;
     * `accepted[i]` says whether the database accepted the i-th. The loop
     * stops at the first rejected upsert; the "saved" notice is raised
     * only when every upsert went through (its two-second reset is not
     * modelled), and a failure leaves it as it was.
     */
    method Save(order: seq<string>, accepted: seq<bool>) returns (sent: seq<Upsert>)
      requires Valid() && KeyOrder(settings, order)
      requires |accepted| == |order|
      modifies this
      ensures Valid()
      ensures settings == old(settings)
      ensures (forall i :: 0 <= i < |order| ==> accepted[i]) ==> saved && sent == Updates(settings, order)
      ensures (forall i :: 0 <= i < |order| ==> accepted[i]) ==>
        forall k :: k in settings ==> Upsert(k, settings[k]) in sent
      ensures !(forall i :: 0 <= i < |order| ==> accepted[i]) ==>
        saved == old(saved)
        && exists n :: (0 <= n < |order| && !accepted[n] && (forall i :: 0 <= i < n ==> accepted[i])
          && sent == Updates(settings, order)[..n + 1])
    {
      var updates := Updates(settings, order);
      sent := [];
      var i := 0;
      var failed := false;
      while i < |updates| && !failed
        invariant 0 <= i <= |updates|
        invariant forall j :: 0 <= j < i - 1 ==> accepted[j]
        invariant !failed ==> forall j :: 0 <= j < i ==> accepted[j]
        invariant failed ==> i > 0 && !accepted[i - 1]
        invariant sent == updates[..i]
      {
        sent := sent + [updates[i]];
        if !accepted[i] {
          failed := true;
        }
        i := i + 1;
      }
      if failed {
        assert !accepted[i - 1];
      } else {
        assert sent == updates;
        saved := true;
        forall k | k in settings
          ensures Upsert(k, settings[k]) in sent
        {
          var n :| 0 <= n < |order| && order[n] == k;
          assert sent[n] == Upsert(k, settings[k]);
        }
      }
    }
  }

  // --------------------------------------------------------------- summary

  /** The number stored under `k`, when it is one. */
  predicate IsNumber(s: Settings, k: string) {
    k in s && s[k].Number?
  }

  /** "Total Quiz Earnings": seven quizzes at the quiz reward. */
  function TotalQuizEarnings(s: Settings): (r: real)
    requires IsNumber(s, QUIZ_REWARD)
    ensures r == 7.0 * s[QUIZ_REWARD].x
  {
    s[QUIZ_REWARD].x * 7.0
  }

  /** "Maximum Base Earnings": the welcome bonus and all seven quiz rewards. */
  function MaximumBaseEarnings(s: Settings): (r: real)
    requires IsNumber(s, QUIZ_REWARD) && IsNumber(s, WELCOME_BONUS)
    ensures r == s[WELCOME_BONUS].x + TotalQuizEarnings(s)
  {
    s[WELCOME_BONUS].x + s[QUIZ_REWARD].x * 7.0
  }

  /**
   * With the defaults the summary reads 50.05 and 65.05 euros, and the
   * defaults are the platform settings of the demonstration data (in cents).
   */
  lemma DefaultSummary()
    ensures TotalQuizEarnings(DEFAULTS) == 50.05
    ensures MaximumBaseEarnings(DEFAULTS) == 65.05
    ensures DEFAULTS[MAX_REFERRALS].x == Fixtures.ADMIN_SETTINGS.maxReferrals as real
    ensures DEFAULTS[MIN_WITHDRAWAL].x * 100.0 == Fixtures.ADMIN_SETTINGS.minWithdrawal as real
    ensures DEFAULTS[QUIZ_REWARD].x * 100.0 == Fixtures.ADMIN_SETTINGS.quizReward as real
    ensures DEFAULTS[REFERRAL_REWARD].x * 100.0 == Fixtures.ADMIN_SETTINGS.referralReward as real
    ensures DEFAULTS[WELCOME_BONUS].x * 100.0 == Fixtures.ADMIN_SETTINGS.welcomeBonus as real
    ensures DEFAULTS[APPOINTMENT_ENABLED] == Flag(Fixtures.ADMIN_SETTINGS.appointmentEnabled)
  {
  }

  /** A stored raw string that does not parse reaches the form unchanged. */
  lemma UnparsableKeptRaw(prev: Settings, key: string, text: string)
    ensures Merge(prev, Collect([Row(key, Encoded(text, None))]))[key] == Text(text)
  {
    assert Collect([Row(key, Encoded(text, None))]) == map[key := Text(text)];
  }
}
