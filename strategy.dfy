/**
 * The strategy table: four named weight vectors over the signals
 * (urgency, importance, quick win, blocker), and the resolution of a
 * user-supplied strategy name to one of them.
 */
module Strategy {
  import opened Wrappers
  import Text

  datatype Weights = Weights(urgency: real, importance: real, quickwin: real, blocker: real)

  /** The keys of the strategy table. */
  datatype Name = FastestWins | HighImpact | DeadlineDriven | SmartBalance

  const DefaultStrategy: string := "smart_balance"

  function Key(s: Name): string {
    match s
    case FastestWins => "fastest_wins"
    case HighImpact => "high_impact"
    case DeadlineDriven => "deadline_driven"
    case SmartBalance => "smart_balance"
  }

  function Sum(w: Weights): real {
    w.urgency + w.importance + w.quickwin + w.blocker
  }

  /** The weight that gives a strategy its name is strictly the largest of the four. */
  predicate NamesakeDominates(s: Name, w: Weights) {
    match s
    case FastestWins => w.quickwin > w.urgency && w.quickwin > w.importance && w.quickwin > w.blocker
    case HighImpact => w.importance > w.urgency && w.importance > w.quickwin && w.importance > w.blocker
    case DeadlineDriven => w.urgency > w.importance && w.urgency > w.quickwin && w.urgency > w.blocker
    case SmartBalance => w.urgency > w.importance > w.quickwin > w.blocker
  }

  /** The table itself. Every vector is positive, sums to one and is led by its namesake weight. */
  function Table(s: Name): (w: Weights)
    ensures Sum(w) == 1.0
    ensures NamesakeDominates(s, w)
    ensures w.urgency > 0.0 && w.importance > 0.0 && w.quickwin > 0.0 && w.blocker > 0.0
  {
    match s
    case FastestWins => Weights(0.15, 0.15, 0.60, 0.10)
    case HighImpact => Weights(0.15, 0.65, 0.05, 0.15)
    case DeadlineDriven => Weights(0.75, 0.20, 0.03, 0.02)
    case SmartBalance => Weights(0.40, 0.35, 0.15, 0.10)
  }

  /** Dictionary lookup of a key in the table. */
  function Lookup(key: string): (r: Option<Name>)
    ensures r.Some? ==> Key(r.value) == key
    ensures r.None? <==> forall s: Name :: Key(s) != key
  {
    if key == "fastest_wins" then Some(FastestWins)
    else if key == "high_impact" then Some(HighImpact)
    else if key == "deadline_driven" then Some(DeadlineDriven)
    else if key == "smart_balance" then Some(SmartBalance)
    else None
  }

  /** The key the user asked for: an empty name means the default, then strip and lower-case. */
  function StrategyKey(strategy: string): string {
    Text.Lower(Text.Strip(if strategy == "" then DefaultStrategy else strategy))
  }

  /**
   * The weights and the reported strategy key for a requested name. An unknown key falls back to
   * the smart_balance weights, yet the key reported back is still the user's own.
   */
  function Resolve(strategy: string): (r: (Weights, string))
    ensures Sum(r.0) == 1.0
  {
    var key := StrategyKey(strategy);
    match Lookup(key)
    case Some(s) => (Table(s), key)
    case None => (Table(SmartBalance), key)
  }

  /** The reported key has no upper-case ASCII letter left, so it is the lower-cased request. */
  lemma StrategyKeyIsLowerCase(strategy: string)
    ensures forall k :: 0 <= k < |StrategyKey(strategy)| ==> !('A' <= StrategyKey(strategy)[k] <= 'Z')
  {
    Text.LowerHasNoCapitals(Text.Strip(if strategy == "" then DefaultStrategy else strategy));
  }

  /** Distinct table entries have distinct keys (their lengths already differ). */
  lemma KeyInjective(s1: Name, s2: Name)
    requires Key(s1) == Key(s2)
    ensures s1 == s2
  {
    assert |Key(s1)| == |Key(s2)|;
  }

  /** The reported key is always the normalised request, and unknown keys get smart_balance weights. */
  lemma ResolveFallsBackToSmartBalance(strategy: string)
    ensures Resolve(strategy).1 == StrategyKey(strategy)
    ensures (forall s: Name :: Key(s) != StrategyKey(strategy)) ==> Resolve(strategy).0 == Table(SmartBalance)
    ensures forall s: Name :: Key(s) == StrategyKey(strategy) ==> Resolve(strategy).0 == Table(s)
  {
    var key := StrategyKey(strategy);
    forall s: Name | Key(s) == key
      ensures Resolve(strategy).0 == Table(s)
    {
      KeyInjective(s, Lookup(key).value);
    }
  }

  /** Each table key resolves to its own weights, and the empty name to the default strategy. */
  lemma {:induction false} ResolveKnownKey(s: Name)
    ensures Resolve(Key(s)) == (Table(s), Key(s))
    ensures Resolve("") == (Table(SmartBalance), "smart_balance")
  {
    KeyIsNormal(s);
    KeyIsNormal(SmartBalance);
    assert StrategyKey("") == StrategyKey(Key(SmartBalance));
    ResolveTableKey(s);
    ResolveTableKey(SmartBalance);
  }

  /** Looking up a table key finds its own entry. */
  lemma ResolveTableKey(s: Name)
    requires StrategyKey(Key(s)) == Key(s)
    ensures Resolve(Key(s)) == (Table(s), Key(s))
  {
    match s
    case FastestWins => assert Lookup("fastest_wins") == Some(FastestWins);
    case HighImpact => assert Lookup("high_impact") == Some(HighImpact);
    case DeadlineDriven => assert Lookup("deadline_driven") == Some(DeadlineDriven);
    case SmartBalance => assert Lookup("smart_balance") == Some(SmartBalance);
  }

  /** A character that may appear in a table key. */
  predicate KeyChar(c: char) {
    'a' <= c <= 'z' || c == '_'
  }

  /** A nonempty string of lower-case letters and underscores is unchanged by strip and lower. */
  lemma NormalKey(k: string)
    requires k != [] && forall i :: 0 <= i < |k| ==> KeyChar(k[i])
    ensures Text.Lower(Text.Strip(k)) == k
  {
    Text.StripUnchanged(k);
    Text.LowerIdempotent(k);
  }

  lemma KeyIsNormal(s: Name)
    ensures StrategyKey(Key(s)) == Key(s)
  {
    match s
    case FastestWins => NormalKey("fastest_wins");
    case HighImpact => NormalKey("high_impact");
    case DeadlineDriven => NormalKey("deadline_driven");
    case SmartBalance => NormalKey("smart_balance");
  }
}
