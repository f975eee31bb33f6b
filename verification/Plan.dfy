/** Pricing and numbering a batch (tools/factory/conductor_plan.py). Money is in
    cents; the config tables and each issue's labels are read beforehand. */
module Plan {
  import opened Rows

  datatype PerKind<+T> = PerKind(prd: T, adr: T, wo: T)
  {
    function Get(kind: Kind): T {
      match kind
      case Prd => prd
      case Adr => adr
      case Wo => wo
    }
  }

  // ---- a budget split across steps

  lemma Distribute(a: int, b: int, c: int)
    ensures (a + b) * c == a * c + b * c
  {
  }

  /** n / d rounded to the nearest integer, a tie to the even one. */
  function HalfEven(n: int, d: int): int
    requires d > 0
  {
    var q, r := n / d, n % d;
    if 2 * r < d || (2 * r == d && q % 2 == 0) then q else q + 1
  }

  /** At most half the bound away. */
  predicate Within(off: int, bound: int) {
    -bound <= 2 * off <= bound
  }

  lemma HalfEvenIsNearest(n: int, d: int)
    requires d > 0
    ensures Within(HalfEven(n, d) * d - n, d)
  {
    var q, r := n / d, n % d;
    assert n == q * d + r;
    Distribute(q, 1, d);
  }

  function Sum(s: seq<int>): int {
    if s == [] then 0 else Sum(Init(s)) + Last(s)
  }

  predicate Positive(weights: seq<int>) {
    weights != [] && forall i :: 0 <= i < |weights| ==> weights[i] > 0
  }

  lemma {:induction false} SumIsPositive(weights: seq<int>)
    requires Positive(weights)
    ensures Sum(weights) > 0
  {
    if |weights| > 1 {
      SumIsPositive(Init(weights));
    } else {
      assert Sum(Init(weights)) == 0;
    }
  }

  /** Each weighted share of the estimate, rounded to a cent. */
  function Shares(estimate: int, weights: seq<int>, total: nat): seq<int>
    requires total > 0
  {
    seq(|weights|, i requires 0 <= i < |weights| => HalfEven(estimate * weights[i], total))
  }

  /** The first step takes what the rounded shares of the others leave. */
  function Ceilings(estimate: int, weights: seq<int>): seq<int>
    requires Positive(weights)
  {
    SumIsPositive(weights);
    var rest := Shares(estimate, weights[1..], Sum(weights));
    [estimate - Sum(rest)] + rest
  }

  lemma {:induction false} SumCons(x: int, s: seq<int>)
    ensures Sum([x] + s) == x + Sum(s)
  {
    if s == [] {
      assert Init([x] + s) == [];
    } else {
      assert Init([x] + s) == [x] + Init(s) && Last([x] + s) == Last(s);
      SumCons(x, Init(s));
    }
  }

  lemma ShareStep(before: int, share: int, total: int, estimate: int, others: int, weight: int, n: int)
    requires Within(before * total - estimate * others, n * total)
    requires Within(share * total - estimate * weight, total)
    ensures Within((before + share) * total - estimate * (others + weight), (n + 1) * total)
  {
    Distribute(before, share, total);
    Distribute(others, weight, estimate);
    Distribute(n, 1, total);
  }

  lemma FirstStep(estimate: int, rest: int, total: int, others: int, weight: int, bound: int)
    requires total == weight + others && Within(rest * total - estimate * others, bound)
    ensures Within((estimate - rest) * total - estimate * weight, bound)
  {
    Distribute(estimate - rest, rest, total);
    Distribute(weight, others, estimate);
  }

  /** Each rounding is off by half a cent at most, and so is their sum by as many halves. */
  lemma {:induction false} SharesAreClose(estimate: int, weights: seq<int>, total: int)
    requires total > 0
    ensures Within(Sum(Shares(estimate, weights, total)) * total - estimate * Sum(weights), |weights| * total)
  {
    if weights != [] {
      var shares, n := Shares(estimate, weights, total), estimate * Last(weights);
      var before, share := Sum(Init(shares)), HalfEven(n, total);
      assert Init(shares) == Shares(estimate, Init(weights), total) && Last(shares) == share;
      SharesAreClose(estimate, Init(weights), total);
      HalfEvenIsNearest(n, total);
      ShareStep(before, share, total, estimate, Sum(Init(weights)), Last(weights), |weights| - 1);
    }
  }

  /** The ceilings sum to the estimate, and the first is within half a cent per
      other step of its weighted share. */
  lemma {:induction false} CeilingsSplitTheEstimate(estimate: int, weights: seq<int>)
    requires Positive(weights)
    ensures Sum(Ceilings(estimate, weights)) == estimate
    ensures |Ceilings(estimate, weights)| == |weights|
    ensures Within(Ceilings(estimate, weights)[0] * Sum(weights) - estimate * weights[0],
                   (|weights| - 1) * Sum(weights))
  {
    SumIsPositive(weights);
    var total, others := Sum(weights), weights[1..];
    var rest := Shares(estimate, others, total);
    var first := estimate - Sum(rest);
    SumCons(first, rest);
    assert weights == [weights[0]] + others;
    SumCons(weights[0], others);
    SharesAreClose(estimate, others, total);
    FirstStep(estimate, Sum(rest), total, Sum(others), weights[0], |others| * total);
  }

  lemma ProductBelow(a: int, b: int)
    requires a <= -1 && b > 0
    ensures a * b <= -b
  {
  }

  /** The first ceiling is never negative once its share is above half a cent for
      every step past the third; of a positive estimate over two or three steps, always. */
  lemma {:induction false} FirstCeilingIsNatural(estimate: nat, weights: seq<int>)
    requires Positive(weights) && 2 * (estimate * weights[0]) > (|weights| - 3) * Sum(weights)
    ensures Ceilings(estimate, weights)[0] >= 0
  {
    SumIsPositive(weights);
    CeilingsSplitTheEstimate(estimate, weights);
    var first, total := Ceilings(estimate, weights)[0], Sum(weights);
    Distribute(|weights| - 3, 2, total);
    if first < 0 { ProductBelow(first, total); }
  }

  // ---- exactly when

  /** The share rounds up. */
  predicate RoundsUp(n: int, d: int)
    requires d > 0
  {
    2 * (n % d) > d || (2 * (n % d) == d && n / d % 2 == 1)
  }

  /** How many shares round up. */
  function RoundedUp(estimate: nat, weights: seq<int>, total: int): nat
    requires total > 0
  {
    if weights == [] then 0
    else RoundedUp(estimate, Init(weights), total) + if RoundsUp(estimate * Last(weights), total) then 1 else 0
  }

  /** The fractional parts of the shares, in `total`-ths of a cent. */
  function Fractions(estimate: nat, weights: seq<int>, total: int): int
    requires total > 0
  {
    if weights == [] then 0 else Fractions(estimate, Init(weights), total) + estimate * Last(weights) % total
  }

  lemma RoundingIs(n: int, d: int)
    requires d > 0
    ensures HalfEven(n, d) * d == n - n % d + if RoundsUp(n, d) then d else 0
  {
    var q := n / d;
    assert n == q * d + n % d;
    Distribute(q, 1, d);
  }

  lemma OffStep(before: int, share: int, total: int, estimate: int, others: int, weight: int, fractions: int,
                fraction: int, ups: int, up: int)
    requires before * total == estimate * others - fractions + ups * total
    requires share * total == estimate * weight - fraction + up * total
    ensures (before + share) * total == estimate * (others + weight) - (fractions + fraction) + (ups + up) * total
  {
    Distribute(before, share, total);
    Distribute(others, weight, estimate);
    Distribute(ups, up, total);
  }

  /** The rounded shares are the exact ones less their fractional parts, and a cent
      for each that rounds up. */
  lemma {:induction false} SharesAre(estimate: nat, weights: seq<int>, total: int)
    requires total > 0
    ensures Sum(Shares(estimate, weights, total)) * total
         == estimate * Sum(weights) - Fractions(estimate, weights, total) + RoundedUp(estimate, weights, total) * total
  {
    if weights != [] {
      var shares, n := Shares(estimate, weights, total), estimate * Last(weights);
      assert Init(shares) == Shares(estimate, Init(weights), total) && Last(shares) == HalfEven(n, total);
      SharesAre(estimate, Init(weights), total);
      RoundingIs(n, total);
      OffStep(Sum(Init(shares)), Last(shares), total, estimate, Sum(Init(weights)), Last(weights),
              Fractions(estimate, Init(weights), total), n % total,
              RoundedUp(estimate, Init(weights), total), if RoundsUp(n, total) then 1 else 0);
    }
  }

  lemma SignOfProduct(a: int, b: int)
    requires b > 0
    ensures a * b >= 0 <==> a >= 0
  {
    if a < 0 { ProductBelow(a, b); }
  }

  lemma FirstProduct(estimate: int, rest: int, total: int, others: int, weight: int, fractions: int, ups: int)
    requires total == weight + others && rest * total == estimate * others - fractions + ups * total
    ensures (estimate - rest) * total == estimate * weight + fractions - ups * total
  {
    Distribute(estimate - rest, rest, total);
    Distribute(weight, others, estimate);
  }

  /** The first ceiling is natural exactly when its exact share and the other shares'
      fractional parts make up a cent for each other share that rounds up. */
  lemma {:induction false} FirstCeilingIsNaturalIff(estimate: nat, weights: seq<int>)
    requires Positive(weights)
    ensures Sum(weights) > 0
    ensures var others, total := weights[1..], Sum(weights);
      Ceilings(estimate, weights)[0] >= 0
      <==> estimate * weights[0] + Fractions(estimate, others, total) >= RoundedUp(estimate, others, total) * total
  {
    SumIsPositive(weights);
    var total, others := Sum(weights), weights[1..];
    var rest := Sum(Shares(estimate, others, total));
    assert weights == [weights[0]] + others;
    SumCons(weights[0], others);
    SharesAre(estimate, others, total);
    FirstProduct(estimate, rest, total, Sum(others), weights[0], Fractions(estimate, others, total),
                 RoundedUp(estimate, others, total));
    SignOfProduct(estimate - rest, total);
  }

  // ---- the bound is sharp

  lemma SumOfFour(a: int, b: int, c: int, d: int)
    ensures Sum([a, b, c, d]) == a + b + c + d
  {
    SumCons(a, [b, c, d]);
    SumCons(b, [c, d]);
    SumCons(c, [d]);
    assert [a, b, c, d] == [a] + [b, c, d] && [b, c, d] == [b] + [c, d] && [c, d] == [c] + [d];
    assert Init([d]) == [];
  }

  /** Equal shares can pass below it: three cents over five equal steps. */
  lemma FirstCeilingCanBeNegative()
    ensures Ceilings(3, [1, 1, 1, 1, 1])[0] == -1
  {
    var ones := [1, 1, 1, 1, 1];
    assert ones == [1] + [1, 1, 1, 1] && ones[1..] == [1, 1, 1, 1];
    SumOfFour(1, 1, 1, 1);
    SumCons(1, [1, 1, 1, 1]);
    assert Shares(3, [1, 1, 1, 1], 5) == [1, 1, 1, 1];
  }

  /** An order's four steps, its first share exactly half a cent. */
  lemma FourStepsAtTheBound()
    ensures 2 * (5 * 1) == (4 - 3) * Sum([1, 3, 3, 3])
    ensures Ceilings(5, [1, 3, 3, 3])[0] == -1
  {
    var weights := [1, 3, 3, 3];
    SumOfFour(1, 3, 3, 3);
    assert weights[1..] == [3, 3, 3];
    assert HalfEven(15, 10) == 2;
    assert Shares(5, [3, 3, 3], 10) == [2, 2, 2];
    SumOfFour(0, 2, 2, 2);
    SumCons(0, [2, 2, 2]);
    assert [0, 2, 2, 2] == [0] + [2, 2, 2];
  }

  /** A feature's or a fix's five steps, the first share exactly one cent. */
  lemma FiveStepsAtTheBound()
    ensures 2 * (7 * 2) == (5 - 3) * Sum([2, 3, 3, 3, 3])
    ensures Ceilings(7, [2, 3, 3, 3, 3])[0] == -1
  {
    var weights := [2, 3, 3, 3, 3];
    assert weights == [2] + [3, 3, 3, 3];
    SumOfFour(3, 3, 3, 3);
    SumCons(2, [3, 3, 3, 3]);
    assert weights[1..] == [3, 3, 3, 3];
    assert HalfEven(21, 14) == 2;
    assert Shares(7, [3, 3, 3, 3], 14) == [2, 2, 2, 2];
    SumOfFour(2, 2, 2, 2);
  }

  /** Every ceiling but the first is its own weighted share, to half a cent. */
  lemma {:induction false} SharesAreOwn(estimate: int, weights: seq<int>, i: nat)
    requires Positive(weights) && 0 < i < |weights|
    ensures |Ceilings(estimate, weights)| == |weights| && Sum(weights) > 0
    ensures Within(Ceilings(estimate, weights)[i] * Sum(weights) - estimate * weights[i], Sum(weights))
  {
    SumIsPositive(weights);
    HalfEvenIsNearest(estimate * weights[i], Sum(weights));
    assert weights[1..][i - 1] == weights[i];
  }

  // ---- issues into items

  /** What an issue's state, author, labels and the config make of it. `resolved`:
      every step's model and effort resolve. */
  datatype Reading = Deferral | Plannable(kind: ItemType, size: Size, resolved: bool)
  datatype Issue = Issue(number: Item, reading: Reading)

  /** The config tables, the month's spend, and the highest number in use of each kind.
      `budgets` holds the sizes with a positive budget. */
  datatype Config = Config(
    budgets: map<Size, nat>, cap: int, spent: int,
    weights: map<State, nat>, highest: PerKind<nat>)
  {
    predicate Valid() {
      forall step :: step in [Spec, Build, Verify, Review, Ship] ==> step in weights && weights[step] > 0
    }

    function Weights(kind: ItemType): (ws: seq<int>)
      requires Valid()
      ensures Positive(ws) && |ws| == |ItemSteps(kind)|
    {
      seq(|ItemSteps(kind)|, i requires 0 <= i < |ItemSteps(kind)| => weights[ItemSteps(kind)[i]])
    }
  }

  datatype PlannedItem = PlannedItem(
    item: Item, kind: ItemType, size: Size, ceilings: seq<int>, estimate: nat, block: PerKind<seq<nat>>)

  /** plan_batch's variables. */
  datatype Draft = Draft(
    free: PerKind<nat>, items: seq<PlannedItem>, deferred: seq<Item>, total: nat, problems: bool)

  /** BLOCK_SIZES. */
  function BlockSize(item: ItemType, kind: Kind): nat {
    match item
    case Feature => (match kind case Prd => 1 case Adr => 3 case Wo => 10)
    case Fix => (match kind case Prd => 0 case Adr => 1 case Wo => 5)
    case Order => 0
  }

  function Range(from: nat, count: nat): seq<nat> {
    seq(count, i requires 0 <= i < count => from + i)
  }

  function BlockFrom(free: PerKind<nat>, item: ItemType): PerKind<seq<nat>> {
    PerKind(Range(free.prd, BlockSize(item, Prd)), Range(free.adr, BlockSize(item, Adr)),
            Range(free.wo, BlockSize(item, Wo)))
  }

  function Beyond(free: PerKind<nat>, item: ItemType): PerKind<nat> {
    PerKind(free.prd + BlockSize(item, Prd), free.adr + BlockSize(item, Adr), free.wo + BlockSize(item, Wo))
  }

  function Start(c: Config): Draft {
    Draft(PerKind(c.highest.prd + 1, c.highest.adr + 1, c.highest.wo + 1), [], [], 0, false)
  }

  function PlanIssue(d: Draft, issue: Issue, c: Config): Draft
    requires c.Valid()
  {
    match issue.reading
    case Deferral => d.(deferred := d.deferred + [issue.number])
    case Plannable(kind, size, resolved) =>
      if size !in c.budgets then d.(problems := true)
      else
        var estimate := c.budgets[size];
        if estimate > c.cap - c.spent - d.total then d.(deferred := d.deferred + [issue.number])
        else
          var item := PlannedItem(issue.number, kind, size, Ceilings(estimate, c.Weights(kind)), estimate,
                                  BlockFrom(d.free, kind));
          Draft(Beyond(d.free, kind), d.items + [item], d.deferred, d.total + estimate, d.problems || !resolved)
  }

  /** An issue adds one item at the end, its block from the first free numbers, or none. */
  lemma IssueGrows(d: Draft, issue: Issue, c: Config)
    requires c.Valid()
    ensures var after := PlanIssue(d, issue, c);
      if after.items == d.items then after.free == d.free
      else
        && |after.items| == |d.items| + 1 && Init(after.items) == d.items
        && Last(after.items).item == issue.number
        && Last(after.items).block == BlockFrom(d.free, Last(after.items).kind)
        && after.free == Beyond(d.free, Last(after.items).kind)
  {
  }

  function PlanIssues(issues: seq<Issue>, c: Config): Draft
    requires c.Valid()
  {
    if issues == [] then Start(c) else PlanIssue(PlanIssues(Init(issues), c), Last(issues), c)
  }

  /** plan_batch: a config problem plans nothing. */
  method PlanBatch(issues: seq<Issue>, c: Config) returns (plan: Option<Draft>)
    requires c.Valid()
    ensures var d := PlanIssues(issues, c); plan == if d.problems then None else Some(d)
  {
    var free, items, deferred, problems := Start(c).free, [], [], false;
    var total: nat := 0;
    for i := 0 to |issues|
      invariant PlanIssues(issues[..i], c) == Draft(free, items, deferred, total, problems)
    {
      assert Init(issues[..i + 1]) == issues[..i];
      var issue := issues[i];
      match issue.reading {
        case Deferral =>
          deferred := deferred + [issue.number];
        case Plannable(kind, size, resolved) =>
          if size !in c.budgets {
            problems := true;
          } else {
            var estimate := c.budgets[size];
            if estimate > c.cap - c.spent - total {
              deferred := deferred + [issue.number];
            } else {
              var block := BlockFrom(free, kind);
              var ceilings := Ceilings(estimate, c.Weights(kind));
              items := items + [PlannedItem(issue.number, kind, size, ceilings, estimate, block)];
              free := Beyond(free, kind);
              total := total + estimate;
              problems := problems || !resolved;
            }
          }
      }
    }
    assert issues[..|issues|] == issues;
    plan := if problems then None else Some(Draft(free, items, deferred, total, problems));
  }

  // ---- money

  function AllCeilings(items: seq<PlannedItem>): int {
    if items == [] then 0 else AllCeilings(Init(items)) + Sum(Last(items).ceilings)
  }

  /** Every planned ceiling together is the batch estimate, and once anything is
      planned that fits what is left of the cap. */
  lemma {:induction false} PlanFitsTheCap(issues: seq<Issue>, c: Config)
    requires c.Valid()
    ensures var d := PlanIssues(issues, c);
      AllCeilings(d.items) == d.total && (d.items != [] ==> d.total <= c.cap - c.spent)
  {
    if issues != [] {
      PlanFitsTheCap(Init(issues), c);
      var d, issue := PlanIssues(Init(issues), c), Last(issues);
      if issue.reading.Plannable? && issue.reading.size in c.budgets {
        var estimate := c.budgets[issue.reading.size];
        CeilingsSplitTheEstimate(estimate, c.Weights(issue.reading.kind));
        if estimate <= c.cap - c.spent - d.total {
          assert Init(PlanIssues(issues, c).items) == d.items;
        }
      }
    }
  }

  /** The issue became an item, or its estimate does not fit what the plan leaves. */
  ghost predicate Settled(issue: Issue, d: Draft, c: Config) {
    match issue.reading
    case Deferral => issue.number in d.deferred
    case Plannable(kind, size, _) =>
      size in c.budgets ==>
        || (exists p :: p in d.items && p.item == issue.number && p.kind == kind && p.size == size
                        && p.estimate == c.budgets[size])
        || (issue.number in d.deferred && c.budgets[size] > c.cap - c.spent - d.total)
  }

  /** Deferral for cost is greedy but never idle: at the end of the plan no
      deferred issue would still fit under the cap. */
  lemma {:induction false} NoDeferredIssueStillFits(issues: seq<Issue>, c: Config)
    requires c.Valid()
    ensures forall i :: 0 <= i < |issues| ==> Settled(issues[i], PlanIssues(issues, c), c)
  {
    if issues != [] {
      var before, d := PlanIssues(Init(issues), c), PlanIssues(issues, c);
      NoDeferredIssueStillFits(Init(issues), c);
      forall i | 0 <= i < |issues|
        ensures Settled(issues[i], d, c)
      {
        if i < |issues| - 1 {
          assert Settled(Init(issues)[i], before, c);
          assert forall p :: p in before.items ==> p in d.items;
        } else if issues[i].reading.Plannable? && issues[i].reading.size in c.budgets
                  && c.budgets[issues[i].reading.size] <= c.cap - c.spent - before.total {
          assert Last(d.items) in d.items;
        }
      }
    }
  }

  // ---- each step's price

  /** The weights of all the steps an item of this type runs. */
  function TotalWeight(c: Config, kind: ItemType): int
    requires c.Valid()
  {
    c.weights[Build] + c.weights[Verify] + c.weights[Review] + c.weights[Ship]
    + if kind == Order then 0 else c.weights[Spec]
  }

  lemma WeightsTotal(c: Config, kind: ItemType)
    requires c.Valid()
    ensures Sum(c.Weights(kind)) == TotalWeight(c, kind)
  {
    var ws, build, verify := c.Weights(kind), c.weights[Build], c.weights[Verify];
    var review, ship := c.weights[Review], c.weights[Ship];
    SumOfFour(build, verify, review, ship);
    if kind == Order {
      assert ws == [build, verify, review, ship];
    } else {
      assert ws == [c.weights[Spec]] + [build, verify, review, ship];
      SumCons(c.weights[Spec], [build, verify, review, ship]);
    }
  }

  /** The item's estimate is its size's budget, and each of its steps is priced by its own
      weight: within half a cent of its share, the first within half a cent per other step. */
  ghost predicate PricedByWeight(p: PlannedItem, c: Config)
    requires c.Valid()
  {
    var steps, total := ItemSteps(p.kind), TotalWeight(c, p.kind);
    && p.size in c.budgets && p.estimate == c.budgets[p.size]
    && |p.ceilings| == |steps| && Sum(p.ceilings) == p.estimate
    && forall i :: 0 <= i < |steps| ==>
         Within(p.ceilings[i] * total - p.estimate * c.weights[steps[i]], (if i == 0 then |steps| - 1 else 1) * total)
  }

  lemma {:induction false} CeilingsByWeight(estimate: nat, kind: ItemType, c: Config, i: nat)
    requires c.Valid() && i < |ItemSteps(kind)|
    ensures var ceilings, steps, total := Ceilings(estimate, c.Weights(kind)), ItemSteps(kind), TotalWeight(c, kind);
      && |ceilings| == |steps| && Sum(ceilings) == estimate
      && Within(ceilings[i] * total - estimate * c.weights[steps[i]], (if i == 0 then |steps| - 1 else 1) * total)
  {
    WeightsTotal(c, kind);
    CeilingsSplitTheEstimate(estimate, c.Weights(kind));
    if i > 0 { SharesAreOwn(estimate, c.Weights(kind), i); }
  }

  /** Every planned item is priced so. */
  lemma {:induction false} ItemsArePriced(issues: seq<Issue>, c: Config)
    requires c.Valid()
    ensures forall p :: p in PlanIssues(issues, c).items ==> PricedByWeight(p, c)
  {
    if issues != [] {
      var d, issue := PlanIssues(Init(issues), c), Last(issues);
      ItemsArePriced(Init(issues), c);
      IssueIsPriced(d, issue, c);
    }
  }

  lemma {:induction false} IssueIsPriced(d: Draft, issue: Issue, c: Config)
    requires c.Valid() && forall p :: p in d.items ==> PricedByWeight(p, c)
    ensures forall p :: p in PlanIssue(d, issue, c).items ==> PricedByWeight(p, c)
  {
    if issue.reading.Plannable? && issue.reading.size in c.budgets {
      var kind, estimate := issue.reading.kind, c.budgets[issue.reading.size];
      forall i | 0 <= i < |ItemSteps(kind)|
        ensures var ceilings, steps := Ceilings(estimate, c.Weights(kind)), ItemSteps(kind);
          var total := TotalWeight(c, kind);
          && |ceilings| == |steps| && Sum(ceilings) == estimate
          && Within(ceilings[i] * total - estimate * c.weights[steps[i]], (if i == 0 then |steps| - 1 else 1) * total)
      {
        CeilingsByWeight(estimate, kind, c, i);
      }
      assert 0 < |ItemSteps(kind)|;
    }
  }

  // ---- what a plan refuses

  /** The issue is planned in its turn: it has a budget, which fits what is left then. */
  predicate FitsInTurn(issues: seq<Issue>, c: Config, i: nat)
    requires c.Valid() && i < |issues|
  {
    var reading := issues[i].reading;
    && reading.Plannable? && reading.size in c.budgets
    && c.budgets[reading.size] <= c.cap - c.spent - PlanIssues(issues[..i], c).total
  }

  /** The issue's size has no budget, or it is planned while a step's model or effort does
      not resolve. */
  predicate Troubles(issues: seq<Issue>, c: Config, i: nat)
    requires c.Valid() && i < |issues|
  {
    var reading := issues[i].reading;
    reading.Plannable? && (reading.size !in c.budgets || (FitsInTurn(issues, c, i) && !reading.resolved))
  }

  lemma TurnsOfPrefix(issues: seq<Issue>, c: Config, i: nat)
    requires c.Valid() && issues != [] && i < |issues| - 1
    ensures Troubles(Init(issues), c, i) <==> Troubles(issues, c, i)
    ensures FitsInTurn(Init(issues), c, i) <==> FitsInTurn(issues, c, i)
  {
    assert Init(issues)[..i] == issues[..i];
  }

  /** A batch is planned exactly when no issue troubles it. */
  lemma {:induction false} PlannedIffUntroubled(issues: seq<Issue>, c: Config)
    requires c.Valid()
    ensures PlanIssues(issues, c).problems <==> exists i :: 0 <= i < |issues| && Troubles(issues, c, i)
  {
    if issues != [] {
      var before := Init(issues);
      PlannedIffUntroubled(before, c);
      assert before == issues[..|issues| - 1];
      forall i | 0 <= i < |before|
        ensures Troubles(before, c, i) <==> Troubles(issues, c, i)
      {
        TurnsOfPrefix(issues, c, i);
      }
      if PlanIssues(before, c).problems {
        var i :| 0 <= i < |before| && Troubles(before, c, i);
        assert Troubles(issues, c, i);
      }
      assert PlanIssues(issues, c).problems <==> PlanIssues(before, c).problems || Troubles(issues, c, |issues| - 1);
    }
  }

  /** The planned items are those of the issues that fit in their turn, in issue order. */
  ghost predicate PlannedInOrder(issues: seq<Issue>, c: Config, items: seq<PlannedItem>)
    requires c.Valid()
  {
    if issues == [] then items == []
    else if FitsInTurn(issues, c, |issues| - 1) then
      && items != [] && Last(items).item == Last(issues).number
      && Last(items).kind == Last(issues).reading.kind && Last(items).size == Last(issues).reading.size
      && PlannedInOrder(Init(issues), c, Init(items))
    else PlannedInOrder(Init(issues), c, items)
  }

  lemma {:induction false} ItemsAreInOrder(issues: seq<Issue>, c: Config)
    requires c.Valid()
    ensures PlannedInOrder(issues, c, PlanIssues(issues, c).items)
  {
    if issues != [] {
      ItemsAreInOrder(Init(issues), c);
      assert Init(issues) == issues[..|issues| - 1];
      IssueGrows(PlanIssues(Init(issues), c), Last(issues), c);
    }
  }

  // ---- numbers

  /** The items' blocks of a kind tile [from, to): each starts where the one before ended. */
  predicate Tiles(items: seq<PlannedItem>, kind: Kind, from: nat, to: nat) {
    if items == [] then from == to
    else
      var size := BlockSize(Last(items).kind, kind);
      to >= size && Last(items).block.Get(kind) == Range(to - size, size) && Tiles(Init(items), kind, from, to - size)
  }

  lemma BlockOfKind(free: PerKind<nat>, item: ItemType, kind: Kind)
    ensures BlockFrom(free, item).Get(kind) == Range(free.Get(kind), BlockSize(item, kind))
    ensures Beyond(free, item).Get(kind) == free.Get(kind) + BlockSize(item, kind)
  {
  }

  lemma {:induction false} IssueTiles(d: Draft, after: Draft, issue: Issue, c: Config, kind: Kind)
    requires c.Valid() && after == PlanIssue(d, issue, c)
    requires Tiles(d.items, kind, c.highest.Get(kind) + 1, d.free.Get(kind))
    ensures Tiles(after.items, kind, c.highest.Get(kind) + 1, after.free.Get(kind))
  {
    IssueGrows(d, issue, c);
    if after.items != d.items {
      BlockOfKind(d.free, Last(after.items).kind, kind);
    }
  }

  /** The blocks take every number above the highest in use, in order, with no gap. */
  lemma {:induction false} BlocksTile(issues: seq<Issue>, c: Config, kind: Kind)
    requires c.Valid()
    ensures Tiles(PlanIssues(issues, c).items, kind, c.highest.Get(kind) + 1, PlanIssues(issues, c).free.Get(kind))
  {
    if issues != [] {
      var d := PlanIssues(Init(issues), c);
      BlocksTile(Init(issues), c, kind);
      IssueTiles(d, PlanIssue(d, Last(issues), c), Last(issues), c, kind);
    }
  }

  lemma {:induction false} TilesAreApart(items: seq<PlannedItem>, kind: Kind, from: nat, to: nat)
    requires Tiles(items, kind, from, to)
    ensures from <= to
    ensures forall i, n :: 0 <= i < |items| && n in items[i].block.Get(kind) ==> from <= n < to
    ensures forall i, j, n :: 0 <= i < j < |items| && n in items[i].block.Get(kind) ==> n !in items[j].block.Get(kind)
  {
    if items != [] {
      var size := BlockSize(Last(items).kind, kind);
      TilesAreApart(Init(items), kind, from, to - size);
      forall i, n | 0 <= i < |items| && n in items[i].block.Get(kind)
        ensures from <= n < to && (i < |items| - 1 ==> n < to - size)
      {
        if i < |items| - 1 { assert n in Init(items)[i].block.Get(kind); }
      }
      forall i, j, n | 0 <= i < j < |items| && n in items[i].block.Get(kind)
        ensures n !in items[j].block.Get(kind)
      {
        assert n in Init(items)[i].block.Get(kind);
        if j < |items| - 1 { assert n !in Init(items)[j].block.Get(kind); }
      }
    }
  }

  // ---- the plan row

  /** The issues named more than once; `plan` and `open` refuse any. */
  ghost function Repeated(numbers: seq<Item>): set<Item> {
    set n | n in numbers && multiset(numbers)[n] > 1
  }

  function Numbers(issues: seq<Issue>): seq<Item> {
    seq(|issues|, i requires 0 <= i < |issues| => issues[i].number)
  }

  lemma {:induction false} ItemsAreIssues(issues: seq<Issue>, c: Config)
    requires c.Valid()
    ensures forall p :: p in PlanIssues(issues, c).items ==> p.item in Numbers(issues)
  {
    if issues != [] {
      ItemsAreIssues(Init(issues), c);
      assert Numbers(issues) == Numbers(Init(issues)) + [Last(issues).number];
    }
  }

  lemma StillDistinct(numbers: seq<Item>, last: Item)
    requires Repeated(numbers + [last]) == {}
    ensures Repeated(numbers) == {} && last !in numbers
  {
    var all := numbers + [last];
    forall n | n in numbers
      ensures multiset(numbers)[n] <= 1 && n != last
    {
      assert n in all && n !in Repeated(all);
      assert multiset(all) == multiset(numbers) + multiset{last};
    }
  }

  predicate Apart(items: seq<PlannedItem>) {
    forall i, j :: 0 <= i < j < |items| ==> items[i].item != items[j].item
  }

  lemma StillApart(before: seq<PlannedItem>, items: seq<PlannedItem>, last: Item)
    requires Apart(before) && forall p :: p in before ==> p.item != last
    requires items == before || (items != [] && Init(items) == before && Last(items).item == last)
    ensures Apart(items)
  {
    forall i, j | 0 <= i < j < |items|
      ensures items[i].item != items[j].item
    {
      if items != before { assert items[i] == before[i] && items[i] in before; }
    }
  }

  lemma {:induction false} ItemsAreDistinct(issues: seq<Issue>, c: Config)
    requires c.Valid() && Repeated(Numbers(issues)) == {}
    ensures Apart(PlanIssues(issues, c).items)
  {
    if issues != [] {
      var numbers := Numbers(issues);
      assert numbers == Numbers(Init(issues)) + [Last(issues).number];
      StillDistinct(Numbers(Init(issues)), Last(issues).number);
      ItemsAreDistinct(Init(issues), c);
      ItemsAreIssues(Init(issues), c);
      IssueGrows(PlanIssues(Init(issues), c), Last(issues), c);
      StillApart(PlanIssues(Init(issues), c).items, PlanIssues(issues, c).items, Last(issues).number);
    }
  }

  /** A step's ceiling is natural, as the plan row needs it. */
  predicate Priced(p: PlannedItem) {
    |p.ceilings| == |ItemSteps(p.kind)| && forall i :: 0 <= i < |p.ceilings| ==> p.ceilings[i] >= 0
  }

  /** A planned item as its plan entry; a step's band comes from its charter. */
  function EntryOf(p: PlannedItem, band: (Item, State) -> Band): Entry
    requires Priced(p)
  {
    var steps := ItemSteps(p.kind);
    Entry(p.item, p.kind, p.size,
          seq(|steps|, i requires 0 <= i < |steps| => PlannedStep(steps[i], band(p.item, steps[i]), p.ceilings[i])))
  }

  function EntriesOf(items: seq<PlannedItem>, band: (Item, State) -> Band): seq<Entry>
    requires forall i :: 0 <= i < |items| ==> Priced(items[i])
  {
    seq(|items|, i requires 0 <= i < |items| => EntryOf(items[i], band))
  }

  /** The plan row's entries are the planned items, in order, each with its type, its size
      and its type's steps. */
  lemma EntriesAreItems(items: seq<PlannedItem>, band: (Item, State) -> Band, i: nat)
    requires i < |items| && forall j :: 0 <= j < |items| ==> Priced(items[j])
    ensures var e := EntriesOf(items, band)[i];
      && |EntriesOf(items, band)| == |items|
      && e.item == items[i].item && e.kind == items[i].kind && e.size == items[i].size
      && StepNames(e.steps) == ItemSteps(e.kind)
  {
  }

  /** The plan row prices each step of an item by that step's own weight. */
  lemma {:induction false} StepsArePriced(issues: seq<Issue>, c: Config, p: PlannedItem, band: (Item, State) -> Band,
                                          s: PlannedStep)
    requires c.Valid() && p in PlanIssues(issues, c).items && Priced(p) && s in EntryOf(p, band).steps
    ensures s.step in ItemSteps(p.kind) && s.step in c.weights && s.band == band(p.item, s.step)
    ensures p.size in c.budgets
    ensures var total, others := TotalWeight(c, p.kind), |ItemSteps(p.kind)| - 1;
      Within(s.ceiling * total - c.budgets[p.size] * c.weights[s.step],
             (if s.step == ItemSteps(p.kind)[0] then others else 1) * total)
  {
    ItemsArePriced(issues, c);
    var steps := EntryOf(p, band).steps;
    var i :| 0 <= i < |steps| && steps[i] == s;
    assert PricedByWeight(p, c);
  }

  /** Distinct, priced items make the plan row `open` promises. */
  lemma EntriesArePlanOk(items: seq<PlannedItem>, band: (Item, State) -> Band)
    requires Apart(items) && forall i :: 0 <= i < |items| ==> Priced(items[i])
    ensures PlanOk(EntriesOf(items, band))
  {
    forall i | 0 <= i < |items|
      ensures StepNames(EntriesOf(items, band)[i].steps) == ItemSteps(EntriesOf(items, band)[i].kind)
    {
      var steps := EntryOf(items[i], band).steps;
      assert forall k :: 0 <= k < |steps| ==> StepNames(steps)[k] == ItemSteps(items[i].kind)[k];
    }
  }

  /** A plan over issues named once each opens a lawful batch: its items are
      distinct and each runs exactly its type's steps. */
  lemma {:induction false} PlansOpen(issues: seq<Issue>, c: Config, band: (Item, State) -> Band)
    requires c.Valid() && Repeated(Numbers(issues)) == {}
    requires forall p :: p in PlanIssues(issues, c).items ==> Priced(p)
    ensures Apart(PlanIssues(issues, c).items) && PlanOk(EntriesOf(PlanIssues(issues, c).items, band))
  {
    ItemsAreDistinct(issues, c);
    EntriesArePlanOk(PlanIssues(issues, c).items, band);
  }
}
