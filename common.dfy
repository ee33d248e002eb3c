/** Shared vocabulary of the combat rules: the enumerations of Battle/Enum/SkillEnum.cs and
    Battle/Enum/HeroEnum.cs, the loosely typed parameter bag that skill effects carry, and the
    numeric conversions (C# casts and Convert.*) that the rules apply to it. */
module Common {

  datatype Option<T> = None | Some(value: T)

  /** `Math.Min` and `Math.Max` on `int`. */
  function Min(a: int, b: int): int { if a <= b then a else b }
  function Max(a: int, b: int): int { if a >= b then a else b }

  /** C#'s `(int)x` on a floating-point value: truncation toward zero. */
  function Trunc(r: real): (n: int)
    ensures r >= 0.0 ==> n as real <= r < n as real + 1.0
    ensures r < 0.0 ==> n as real - 1.0 < r <= n as real
  {
    if r >= 0.0 then r.Floor else -((-r).Floor)
  }

  /** `Convert.ToInt32` on a floating-point value: round to nearest, ties to even. */
  function RoundHalfEven(r: real): (n: int)
    ensures -0.5 <= r - n as real <= 0.5
    ensures r - n as real == 0.5 || n as real - r == 0.5 ==> n % 2 == 0
  {
    var f := r.Floor;
    var frac := r - f as real;
    if frac < 0.5 then f
    else if frac > 0.5 then f + 1
    else if f % 2 == 0 then f else f + 1
  }

  /** A non-empty set has a member to pick (the step from `keys != {}` to a `:|` choice). */
  lemma NonEmptyHasMember<T>(keys: set<T>) returns (k: T)
    requires keys != {}
    ensures k in keys
  {
    if forall x :: x !in keys {
      assert false;
    }
    k :| k in keys;
  }

  /** Merging into an empty map changes nothing. */
  lemma MergeIntoEmpty<K, V>(m: map<K, V>)
    ensures map[] + m == m
  {
  }

  /** Updating a merged map is merging the updated right-hand side. */
  lemma MergeUpdate<K, V>(m: map<K, V>, n: map<K, V>, k: K, v: V)
    ensures (m + n)[k := v] == m + n[k := v]
  {
  }

  /** A value stored in a `Dictionary<string, object>` parameter bag. */
  datatype ParamValue = IntVal(i: int) | RealVal(r: real) | BoolVal(b: bool) | TextVal(s: string)

  type ParamBag = map<string, ParamValue>

  /** `Convert.ToSingle(object)`. */
  function ToSingle(v: ParamValue): real
  {
    match v
    case IntVal(i) => i as real
    case RealVal(r) => r
    case BoolVal(b) => if b then 1.0 else 0.0
    case TextVal(_) => 0.0
  }

  /** `Convert.ToInt32(object)`. */
  function ToInt32(v: ParamValue): int
  {
    match v
    case IntVal(i) => i
    case RealVal(r) => RoundHalfEven(r)
    case BoolVal(b) => if b then 1 else 0
    case TextVal(_) => 0
  }

  /** `Convert.ToBoolean(object)`. */
  function ToBoolean(v: ParamValue): bool
  {
    match v
    case IntVal(i) => i != 0
    case RealVal(r) => r != 0.0
    case BoolVal(b) => b
    case TextVal(s) => s == "True" || s == "true"
  }

  /** `object.ToString()` as the template code uses it for attribute names. */
  function ToText(v: ParamValue): string
  {
    match v
    case TextVal(s) => s
    case BoolVal(b) => if b then "True" else "False"
    case IntVal(i) => IntToText(i)
    case RealVal(_) => ""
  }

  function DigitsOf(n: nat): string
    decreases n
  {
    var d := ['0', '1', '2', '3', '4', '5', '6', '7', '8', '9'][n % 10];
    if n < 10 then [d] else DigitsOf(n / 10) + [d]
  }

  function IntToText(i: int): string
  {
    if i < 0 then "-" + DigitsOf(-i) else DigitsOf(i)
  }

  /** Effect kinds. The repository declares two enumerations of this name
      (Battle/Skill/SkillDefinition.cs and Battle/Enum/SkillEnum.cs); they are merged here by
      name. `AddBuff` is the constructor that SkillDefinition.cs calls `Buff` (value 3 in both);
      `NoEffectType` stands for the default value 0, which names no member. */
  datatype EffectType =
    | NoEffectType | Damage | Heal | AddBuff | Odds | Trigger | ChangeAttrPercentage | ChangeAtteFixed
    | RemoveBuff | Revive | SkillRepeat | DisControl | Control | Shield | Taunt | MinHpHeal
    | RecordHarm | Dispel | Debuff | Steal | Transform | Summon | Special

  /** Skill kinds, merged by name from the two `SkillType` enumerations; `NoSkillType` stands
      for the default value 0. */
  datatype SkillType = NoSkillType | Attack | Active | Passive | TriggerSkill | Combo | Resident

  datatype RevolutionType = Mp | Cooldown

  datatype ModifierType = Add | Multiply | Set

  datatype TargetType =
    | SingleEnemy | AllAllies | AllEnemies | RandomAllies | AllyFrontLine | AllyBackLine
    | EnemyFrontLine | EnemyBackLine | RandomEnemies | Warrior | Mage | Tank | Support | Assassin
    | Self | AllyLowestHp | EnemyHighestAttack | EnemyHighestCurrentHp | SingleAlly
    | EnemyLowestCurrentHp | AllyHighestAttack | EnemyAll | EnemyRandom | EnemyLowestHp
    | AllyAll | AllyRandom

  /** The attribute identifiers of `AttributeType` (Battle/Enum/HeroEnum.cs) that the rules read. */
  const ATTR_HP: int := 1001
  const ATTR_ATTACK: int := 1002
  const ATTR_DEFENSE: int := 1003
  const ATTR_SPEED: int := 1004
  const ATTR_MP: int := 1005
  const ATTR_CONTROL_COUNT_ENHANCE: int := 1007
  const ATTR_CONTROL_COUNT_REDUCE: int := 1008
  const ATTR_CRITICAL_RATE: int := 3011

  /** The floating-point rate attributes copied verbatim by `CreatePlayerUnit`. */
  const RATE_ATTRIBUTES: set<int> :=
    {2001, 2002, 2003, 2004, 2005, 3001, 3002, 3003, 3004, 3005, 3006, 3007, 3008, 3009, 3010,
     3011, 3012, 3013, 3014, 3015, 3016, 3017, 3018, 3019, 3020, 3021}
}
