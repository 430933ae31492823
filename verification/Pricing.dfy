/**
 * Prices by prompt length. A gateway lists prompt-length brackets for each of four rates; they are compiled into one
 * table of tiers, each with all four rates, which is scanned to charge a request.
 */
module Pricing {
  import opened Lists

  /** The four rates of a request: input, output, cache reads and cache writes. */
  datatype Rate = Input | Output | CacheRead | CacheWrite

  /** A price for prompts of `min` up to but without `max` tokens; an absent end is open. */
  datatype Bracket = Bracket(cost: Option<int>, min: Option<nat>, max: Option<nat>)

  /** A gateway's prices per token; `perMillion` parses and scales them. */
  datatype Gateway = Gateway(base: Rate -> int, brackets: Rate -> seq<Bracket>, perMillion: int -> real)

  datatype Tier = Tier(inputTokensAbove: int, rates: Rate -> real)

  /** The prompt length from which a tier applies. */
  function From(t: Tier): int {
    t.inputTokensAbove + 1
  }

  datatype ModelCost = ModelCost(base: Rate -> real, tiers: seq<Tier>)

  const RATES := [Input, Output, CacheRead, CacheWrite]

  predicate Contains(b: Bracket, tokens: nat) {
    (b.min.None? || b.min.value <= tokens) && (b.max.None? || tokens < b.max.value)
  }

  function Start(b: Bracket): nat {
    if b.min.None? then 0 else b.min.value
  }

  /** The index of the first bracket that contains a prompt length, or the number of brackets. */
  function Find(brackets: seq<Bracket>, tokens: nat): (i: nat)
    ensures i <= |brackets| && (i < |brackets| ==> Contains(brackets[i], tokens))
    ensures forall j | 0 <= j < i :: !Contains(brackets[j], tokens)
  {
    if brackets == [] then 0
    else if Contains(brackets[0], tokens) then 0
    else 1 + Find(brackets[1..], tokens)
  }

  /** A rate by direct lookup: of the bracket that contains the prompt length, or the base price. */
  function Lookup(g: Gateway, rate: Rate, tokens: nat): real {
    var brackets := g.brackets(rate);
    var i := Find(brackets, tokens);
    if i < |brackets| && brackets[i].cost.Some? then g.perMillion(brackets[i].cost.value)
    else g.perMillion(g.base(rate))
  }

  /** Some rate's brackets start at `tokens`, above zero. */
  predicate IsStart(g: Gateway, tokens: nat) {
    tokens > 0 && exists rate | rate in RATES :: exists b | b in g.brackets(rate) :: b.min == Some(tokens)
  }

  method Starts(g: Gateway) returns (starts: set<nat>)
    ensures forall s :: s in starts <==> IsStart(g, s)
  {
    starts := {};
    var k := 0;
    while k < |RATES|
      invariant 0 <= k <= |RATES|
      invariant forall s :: s in starts <==>
                s > 0 && exists j | 0 <= j < k :: exists b | b in g.brackets(RATES[j]) :: b.min == Some(s)
    {
      var brackets := g.brackets(RATES[k]);
      starts := starts + set b | b in brackets && b.min.Some? && b.min.value > 0 :: b.min.value;
      k := k + 1;
    }
    forall s | s > 0
      ensures (exists j | 0 <= j < k :: exists b | b in g.brackets(RATES[j]) :: b.min == Some(s)) <==> IsStart(g, s)
    {
      if rate :| rate in RATES && exists b | b in g.brackets(rate) :: b.min == Some(s) {
        var j :| 0 <= j < |RATES| && RATES[j] == rate;
      }
    }
  }

  function TierAt(g: Gateway, start: nat): Tier {
    Tier(start - 1, rate => Lookup(g, rate, start))
  }

  /** The tiers are at the starts of brackets, one each, and each has what the lookup finds at its start. */
  ghost predicate Compiled(g: Gateway, m: ModelCost) {
    && (forall rate :: m.base(rate) == g.perMillion(g.base(rate)))
    && (forall t | t in m.tiers ::
          From(t) > 0 && IsStart(g, From(t)) && forall rate :: t.rates(rate) == Lookup(g, rate, From(t)))
    && (forall s | IsStart(g, s) :: exists t | t in m.tiers :: From(t) == s)
  }

  method GetCost(g: Gateway) returns (m: ModelCost)
    ensures Compiled(g, m)
  {
    var set_ := Starts(g);
    var starts := Sort(set_);
    var tiers: seq<Tier> := [];
    while |tiers| < |starts|
      invariant |tiers| <= |starts| && forall i | 0 <= i < |tiers| :: tiers[i] == TierAt(g, starts[i])
    {
      tiers := tiers + [TierAt(g, starts[|tiers|])];
    }
    m := ModelCost(rate => g.perMillion(g.base(rate)), tiers);
    forall t | t in m.tiers
      ensures From(t) > 0 && IsStart(g, From(t)) && forall rate :: t.rates(rate) == Lookup(g, rate, From(t))
    {
      var i :| 0 <= i < |tiers| && tiers[i] == t;
      assert starts[i] in starts && From(t) == starts[i];
    }
    forall s | IsStart(g, s)
      ensures exists t | t in m.tiers :: From(t) == s
    {
      var i :| 0 <= i < |starts| && starts[i] == s;
      assert tiers[i] in m.tiers && From(tiers[i]) == s;
    }
  }

  // ─── what the table charges ───

  predicate Applies(t: Tier, tokens: nat) {
    -1 < t.inputTokensAbove < tokens
  }

  /** The scan finds the tier with the highest threshold below the prompt length, whatever the order of the table. */
  method Scan(tiers: seq<Tier>, tokens: nat) returns (best: int)
    ensures -1 <= best < |tiers|
    ensures best < 0 ==> forall t | t in tiers :: !Applies(t, tokens)
    ensures best >= 0 ==> Applies(tiers[best], tokens)
    ensures best >= 0 ==>
              forall t | t in tiers && Applies(t, tokens) :: t.inputTokensAbove <= tiers[best].inputTokensAbove
  {
    best := -1;
    var matched := -1;
    var i := 0;
    while i < |tiers|
      invariant 0 <= i <= |tiers| && -1 <= best < i
                && matched == (if best < 0 then -1 else tiers[best].inputTokensAbove)
      invariant best >= 0 ==> Applies(tiers[best], tokens)
      invariant forall j | 0 <= j < i && Applies(tiers[j], tokens) :: tiers[j].inputTokensAbove <= matched
    {
      if tokens > tiers[i].inputTokensAbove && tiers[i].inputTokensAbove > matched {
        best := i;
        matched := tiers[i].inputTokensAbove;
      }
      i := i + 1;
    }
  }

  /** The rate in effect at the latest bracket start, of any rate, up to a prompt length. */
  ghost function Charged(g: Gateway, rate: Rate, tokens: nat): real {
    if tokens == 0 then g.perMillion(g.base(rate))
    else if IsStart(g, tokens) then Lookup(g, rate, tokens)
    else Charged(g, rate, tokens - 1)
  }

  lemma {:induction false} ChargedSince(g: Gateway, rate: Rate, since: nat, tokens: nat)
    requires since <= tokens && forall s: nat | since < s <= tokens :: !IsStart(g, s)
    ensures Charged(g, rate, tokens) == Charged(g, rate, since)
  {
    if since < tokens {
      ChargedSince(g, rate, since, tokens - 1);
    }
  }

  /** The compiled table, scanned, charges the rate in effect at the latest bracket start. */
  lemma ScanCharges(g: Gateway, m: ModelCost, rate: Rate, tokens: nat, best: int)
    requires Compiled(g, m) && -1 <= best < |m.tiers|
    requires best < 0 ==> forall t | t in m.tiers :: !Applies(t, tokens)
    requires best >= 0 ==> Applies(m.tiers[best], tokens)
    requires best >= 0 ==>
               forall t | t in m.tiers && Applies(t, tokens) :: t.inputTokensAbove <= m.tiers[best].inputTokensAbove
    ensures (if best < 0 then m.base(rate) else m.tiers[best].rates(rate)) == Charged(g, rate, tokens)
  {
    if best >= 0 {
      assert m.tiers[best] in m.tiers;
    }
    var since: nat := if best < 0 then 0 else From(m.tiers[best]);
    forall s: nat | since < s <= tokens
      ensures !IsStart(g, s)
    {
      assert forall t | t in m.tiers :: Applies(t, tokens) ==> From(t) <= since;
      assert forall t | t in m.tiers :: From(t) != s;
    }
    ChargedSince(g, rate, since, tokens);
  }

  /** A bracket of the rate ends at a prompt length. */
  predicate IsEnd(g: Gateway, rate: Rate, tokens: nat) {
    exists b | b in g.brackets(rate) :: b.max == Some(tokens)
  }

  lemma {:induction false} FindSame(brackets: seq<Bracket>, s: nat, t: nat)
    requires forall b | b in brackets :: Contains(b, s) <==> Contains(b, t)
    ensures Find(brackets, s) == Find(brackets, t)
  {
    if brackets != [] {
      assert brackets[0] in brackets;
      FindSame(brackets[1..], s, t);
    }
  }

  /** A rate changes only where a bracket starts or ends. */
  lemma LookupSteps(g: Gateway, rate: Rate, tokens: nat)
    requires tokens > 0 && rate in RATES && !IsStart(g, tokens) && !IsEnd(g, rate, tokens)
    ensures Lookup(g, rate, tokens) == Lookup(g, rate, tokens - 1)
  {
    forall b | b in g.brackets(rate)
      ensures Contains(b, tokens) <==> Contains(b, tokens - 1)
    {
      assert b.min != Some(tokens) && b.max != Some(tokens);
    }
    FindSame(g.brackets(rate), tokens, tokens - 1);
  }

  lemma {:induction false} ExactUpTo(g: Gateway, rate: Rate, tokens: nat)
    requires rate in RATES && Charged(g, rate, 0) == Lookup(g, rate, 0)
    requires forall e: nat | IsEnd(g, rate, e) && e <= tokens :: Charged(g, rate, e) == Lookup(g, rate, e)
    ensures Charged(g, rate, tokens) == Lookup(g, rate, tokens)
  {
    if tokens > 0 && !IsStart(g, tokens) && !IsEnd(g, rate, tokens) {
      ExactUpTo(g, rate, tokens - 1);
      LookupSteps(g, rate, tokens);
    }
  }

  /** The latest bracket start, of any rate, up to a prompt length (0 if there is none). */
  function LatestStart(g: Gateway, tokens: nat): (start: nat)
    ensures start <= tokens && (start == 0 || IsStart(g, start))
    ensures forall s: nat | start < s <= tokens :: !IsStart(g, s)
  {
    if tokens == 0 || IsStart(g, tokens) then tokens else LatestStart(g, tokens - 1)
  }

  lemma ChargedAtLatest(g: Gateway, rate: Rate, tokens: nat)
    ensures var start := LatestStart(g, tokens);
            Charged(g, rate, tokens) == if start == 0 then g.perMillion(g.base(rate)) else Lookup(g, rate, start)
  {
    ChargedSince(g, rate, LatestStart(g, tokens), tokens);
  }

  /**
   * The brackets of a rate leave nothing to direct lookup that a table misses: it begins at the base price, and
   * wherever a bracket of it ends, some rate's bracket starts, or the price stays what it was at the latest start.
   */
  predicate Tight(g: Gateway, rate: Rate) {
    && Lookup(g, rate, 0) == g.perMillion(g.base(rate))
    && forall b | b in g.brackets(rate) && b.max.Some? ::
         IsStart(g, b.max.value) || Lookup(g, rate, b.max.value) == Lookup(g, rate, LatestStart(g, b.max.value))
  }

  /**
   * Exactly when the table means the same as direct lookup, for every prompt length: if the rate's brackets are tight.
   */
  lemma ExactIffTight(g: Gateway, rate: Rate)
    requires rate in RATES
    ensures (forall tokens: nat :: Charged(g, rate, tokens) == Lookup(g, rate, tokens)) <==> Tight(g, rate)
  {
    if Tight(g, rate) {
      forall e: nat | IsEnd(g, rate, e)
        ensures Charged(g, rate, e) == Lookup(g, rate, e)
      {
        ChargedAtLatest(g, rate, e);
      }
      forall tokens: nat
        ensures Charged(g, rate, tokens) == Lookup(g, rate, tokens)
      {
        ExactUpTo(g, rate, tokens);
      }
    }
    if forall tokens: nat :: Charged(g, rate, tokens) == Lookup(g, rate, tokens) {
      assert Charged(g, rate, 0) == Lookup(g, rate, 0);
      forall b | b in g.brackets(rate) && b.max.Some?
        ensures IsStart(g, b.max.value) || Lookup(g, rate, b.max.value) == Lookup(g, rate, LatestStart(g, b.max.value))
      {
        assert Charged(g, rate, b.max.value) == Lookup(g, rate, b.max.value);
        ChargedAtLatest(g, rate, b.max.value);
      }
    }
  }

  /** Brackets that are contiguous from 0 and start at the base price: where one ends, another one starts. */
  ghost predicate Contiguous(g: Gateway, rate: Rate) {
    && (forall b | b in g.brackets(rate) && b.max.Some? ::
          b.max.value > 0 && exists c | c in g.brackets(rate) :: c.min == b.max)
    && Lookup(g, rate, 0) == g.perMillion(g.base(rate))
  }

  /** With contiguous brackets, every prompt length is charged the rate of its bracket, each rate independently. */
  lemma ContiguousIsExact(g: Gateway, rate: Rate, tokens: nat)
    requires rate in RATES && Contiguous(g, rate)
    ensures Charged(g, rate, tokens) == Lookup(g, rate, tokens)
  {
    assert Tight(g, rate);
    ExactIffTight(g, rate);
  }

  /** A bracket that ends where no other starts: prompts past its end still pay its rate. */
  lemma PastTheLastBracket()
    ensures var brackets := [Bracket(Some(2), Some(10), Some(20))];
            var g := Gateway(_ => 1, (rate: Rate) => if rate.Input? then brackets else [], (x: int) => x as real);
            Charged(g, Input, 25) == 2.0 && Lookup(g, Input, 25) == 1.0 && !Tight(g, Input)
  {
    var bracket := Bracket(Some(2), Some(10), Some(20));
    var g := Gateway(_ => 1, (rate: Rate) => if rate.Input? then [bracket] else [], (x: int) => x as real);
    assert g.brackets(Input) == [bracket] && bracket in g.brackets(Input);
    assert Input in RATES && IsStart(g, 10);
    assert forall s: nat | 10 < s :: !IsStart(g, s);
    ChargedSince(g, Input, 10, 25);
    assert [bracket][1..] == [];
    assert Find([bracket], 10) == 0 && Find([bracket], 25) == 1;
    ExactIffTight(g, Input);
  }

  /** Tokens of a request, and what it costs; `longWrites` of the cache writes are kept for an hour. */
  class Usage {
    const input: nat
    const output: nat
    const cacheRead: nat
    const cacheWrite: nat
    const longWrites: nat
    var cost: Cost

    constructor (input: nat, output: nat, cacheRead: nat, cacheWrite: nat, longWrites: nat)
      ensures this.input == input && this.output == output && this.cacheRead == cacheRead
      ensures this.cacheWrite == cacheWrite && this.longWrites == longWrites
    {
      this.input, this.output, this.cacheRead, this.cacheWrite := input, output, cacheRead, cacheWrite;
      this.longWrites, cost := longWrites, Cost(0.0, 0.0, 0.0, 0.0, 0.0);
    }

    /** The prompt length that decides the tier. */
    function Prompt(): nat {
      input + cacheRead + cacheWrite
    }

    /** Costs by the table; writes kept for an hour cost twice the input rate. */
    method Calculate(m: ModelCost, ghost g: Gateway)
      requires Compiled(g, m)
      modifies this
      ensures cost == CostAt(Charged(g, Input, Prompt()), Charged(g, Output, Prompt()),
                             Charged(g, CacheRead, Prompt()), Charged(g, CacheWrite, Prompt()))
    {
      var best := Scan(m.tiers, Prompt());
      var i, o, r, w;
      if best < 0 {
        i, o, r, w := m.base(Input), m.base(Output), m.base(CacheRead), m.base(CacheWrite);
      } else {
        var rates := m.tiers[best].rates;
        i, o, r, w := rates(Input), rates(Output), rates(CacheRead), rates(CacheWrite);
      }
      ScanCharges(g, m, Input, Prompt(), best);
      ScanCharges(g, m, Output, Prompt(), best);
      ScanCharges(g, m, CacheRead, Prompt(), best);
      ScanCharges(g, m, CacheWrite, Prompt(), best);
      cost := CostAt(i, o, r, w);
    }

    function CostAt(i: real, o: real, r: real, w: real): Cost {
      var written := Written(w, cacheWrite - longWrites, i, longWrites);
      var inputs, outputs, cached := Share(i, input), Share(o, output), Share(r, cacheRead);
      Cost(inputs, outputs, cached, written, inputs + outputs + cached + written)
    }
  }

  datatype Cost = Cost(input: real, output: real, cacheRead: real, cacheWrite: real, total: real)

  /** The cost of tokens at a rate per million. */
  function Share(rate: real, tokens: nat): real {
    rate / 1000000.0 * tokens as real
  }

  function Written(rate: real, shortWrites: int, input: real, longWrites: nat): real {
    (rate * shortWrites as real + input * 2.0 * longWrites as real) / 1000000.0
  }
}
