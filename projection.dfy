/**
 * `simulate_account_balances` of the analysis API (`routers/analyze.py`): a
 * year-by-year projection of RRSP, FHSA, TFSA and brokerage balances.
 *
 * Each year's spare cash is poured through a waterfall: as much as the RRSP
 * room allows goes to the RRSP, then the FHSA, then the TFSA, and the rest to
 * the brokerage account. The fraction of the year elapsed since 2024-01-01,
 * which the code reads from the clock, is the parameter `deltaFraction`.
 */
module Projection {

  datatype Params = Params(
    initialSalary: real, salaryGrowth: real,
    initialBonus: real, bonusGrowth: real,
    initialExpenses: real, expensesGrowth: real,
    investmentYield: real, taxRate: real, years: int,
    initialRrspBalance: real, initialFhsaBalance: real, initialTfsaBalance: real, initialBrokerageBalance: real,
    initialRrspRoom: real, initialFhsaRoom: real, initialTfsaRoom: real)

  datatype Balances = Balances(rrsp: real, fhsa: real, tfsa: real, brokerage: real)
  datatype Rooms = Rooms(rrsp: real, fhsa: real, tfsa: real)

  /** The simulation's variables between two years. */
  datatype State = State(balances: Balances, rooms: Rooms, salary: real, bonus: real, expenses: real)

  /** One pass of the waterfall: the new balances and rooms, what each account received, and the cash left. */
  datatype Waterfall = Waterfall(balances: Balances, rooms: Rooms, contributions: Balances, cash: real)

  /** The returned dictionary: one list per account, and the net worths. */
  datatype Projection = Projection(rrsp: seq<real>, fhsa: seq<real>, tfsa: seq<real>, brokerage: seq<real>, netWorth: seq<real>)

  /** The yearly caps on new room. */
  const RrspRoomRate: real := 0.18
  const RrspRoomCap: real := 30000.0
  const FhsaRoomGrant: real := 8000.0
  const TfsaRoomGrant: real := 6000.0

  function Min(a: real, b: real): real {
    if a <= b then a else b
  }

  function Max(a: real, b: real): real {
    if a >= b then a else b
  }

  /**
   * The contribution steps: each account takes `min(cash, room)`, its room drops
   * to `max(0, room - contribution)` and the cash to `max(0, cash - contribution)`;
   * the cash left after the RRSP is scaled by `afterRrsp` (the tax factor in the
   * first year), and the brokerage account takes whatever non-negative cash remains.
   */
  function RunWaterfall(cash: real, b: Balances, r: Rooms, afterRrsp: real): (w: Waterfall)
    ensures w.cash == 0.0
    ensures w.contributions.rrsp <= r.rrsp && w.contributions.fhsa <= r.fhsa && w.contributions.tfsa <= r.tfsa
    ensures w.rooms.rrsp >= 0.0 && w.rooms.fhsa >= 0.0 && w.rooms.tfsa >= 0.0
    ensures w.contributions.brokerage >= 0.0
    ensures w.balances == Balances(b.rrsp + w.contributions.rrsp, b.fhsa + w.contributions.fhsa,
                                   b.tfsa + w.contributions.tfsa, b.brokerage + w.contributions.brokerage)
  {
    var toRrsp := Min(cash, r.rrsp);
    var cash1 := Max(0.0, cash - toRrsp) * afterRrsp;
    var toFhsa := Min(cash1, r.fhsa);
    var cash2 := Max(0.0, cash1 - toFhsa);
    var toTfsa := Min(cash2, r.tfsa);
    var cash3 := Max(0.0, cash2 - toTfsa);
    var toBrokerage := Max(0.0, cash3);
    Waterfall(
      Balances(b.rrsp + toRrsp, b.fhsa + toFhsa, b.tfsa + toTfsa, b.brokerage + toBrokerage),
      Rooms(Max(0.0, r.rrsp - toRrsp), Max(0.0, r.fhsa - toFhsa), Max(0.0, r.tfsa - toTfsa)),
      Balances(toRrsp, toFhsa, toTfsa, toBrokerage),
      Max(0.0, cash3 - toBrokerage))
  }

  function Total(c: Balances): real {
    c.rrsp + c.fhsa + c.tfsa + c.brokerage
  }

  /**
   * With nothing withheld, the waterfall hands out exactly the cash it was
   * given, whatever the rooms: nothing is lost and nothing invented.
   */
  lemma WaterfallConservesCash(cash: real, b: Balances, r: Rooms)
    ensures Total(RunWaterfall(cash, b, r, 1.0).contributions) == cash
  {
  }

  /** With tax withheld after the RRSP step, the accounts receive the RRSP share plus the taxed remainder. */
  lemma WaterfallWithholdsTax(cash: real, b: Balances, r: Rooms, taxRate: real)
    ensures var w := RunWaterfall(cash, b, r, 1.0 - taxRate);
      Total(w.contributions) == w.contributions.rrsp + Max(0.0, cash - w.contributions.rrsp) * (1.0 - taxRate)
  {
  }

  /** The cash of a year: `(salary - expenses) * delta_fraction + bonus`. */
  function Cash(salary: real, bonus: real, expenses: real, deltaFraction: real): real {
    (salary - expenses) * deltaFraction + bonus
  }

  /** New room at the start of a year, before any contribution. */
  function Grant(r: Rooms, salary: real, bonus: real): Rooms {
    Rooms(r.rrsp + Min((salary + bonus) * RrspRoomRate, RrspRoomCap), r.fhsa + FhsaRoomGrant, r.tfsa + TfsaRoomGrant)
  }

  /** `amount * (1 + rate)`: a year of growth at `rate`. */
  function Compound(amount: real, rate: real): real {
    amount * (1.0 + rate)
  }

  /** A year's investment yield on every balance. */
  function Grow(b: Balances, rate: real): Balances {
    Balances(Compound(b.rrsp, rate), Compound(b.fhsa, rate), Compound(b.tfsa, rate), Compound(b.brokerage, rate))
  }

  /** Year 0: the waterfall on the initial balances and rooms, with tax withheld after the RRSP step. */
  function Initial(p: Params, deltaFraction: real): State {
    var w := RunWaterfall(
      Cash(p.initialSalary, p.initialBonus, p.initialExpenses, deltaFraction),
      Balances(p.initialRrspBalance, p.initialFhsaBalance, p.initialTfsaBalance, p.initialBrokerageBalance),
      Rooms(p.initialRrspRoom, p.initialFhsaRoom, p.initialTfsaRoom),
      1.0 - p.taxRate);
    State(w.balances, w.rooms, p.initialSalary, p.initialBonus, p.initialExpenses)
  }

  /**
   * One simulated year: new room, then yield, then the waterfall without tax on
   * this year's cash, then salary, bonus and expenses grow for the next year.
   */
  function Step(p: Params, deltaFraction: real, s: State): State {
    var w := RunWaterfall(
      Cash(s.salary, s.bonus, s.expenses, deltaFraction),
      Grow(s.balances, p.investmentYield),
      Grant(s.rooms, s.salary, s.bonus),
      1.0);
    State(w.balances, w.rooms,
          Compound(s.salary, p.salaryGrowth), Compound(s.bonus, p.bonusGrowth), Compound(s.expenses, p.expensesGrowth))
  }

  /** The state after year 0 and `n` simulated years. */
  function After(p: Params, deltaFraction: real, n: nat): State {
    if n == 0 then Initial(p, deltaFraction) else Step(p, deltaFraction, After(p, deltaFraction, n - 1))
  }

  /** A balance less the tax on its gain over `initial`. */
  function AfterTax(balance: real, initial: real, taxRate: real): real {
    balance - (balance - initial) * taxRate
  }

  /** The net worth: RRSP and brokerage gains taxed at `tax_rate`, FHSA and TFSA untaxed. */
  function NetWorth(p: Params, b: Balances): real {
    AfterTax(b.rrsp, p.initialRrspBalance, p.taxRate) + b.fhsa + b.tfsa
      + AfterTax(b.brokerage, p.initialBrokerageBalance, p.taxRate)
  }

  /** The five lists after `n` simulated years. */
  function Simulate(p: Params, deltaFraction: real, n: nat): Projection {
    if n == 0 then Projection([], [], [], [], [])
    else
      var prev := Simulate(p, deltaFraction, n - 1);
      var b := After(p, deltaFraction, n).balances;
      Projection(prev.rrsp + [b.rrsp], prev.fhsa + [b.fhsa], prev.tfsa + [b.tfsa], prev.brokerage + [b.brokerage],
                 prev.netWorth + [NetWorth(p, b)])
  }

  /** Every list has one entry per year, and entry `i` holds the balances after year `i + 1`. */
  lemma {:induction false} SimulateShape(p: Params, deltaFraction: real, n: nat)
    ensures var r := Simulate(p, deltaFraction, n);
      && |r.rrsp| == n && |r.fhsa| == n && |r.tfsa| == n && |r.brokerage| == n && |r.netWorth| == n
      && forall i :: 0 <= i < n ==>
           var b := After(p, deltaFraction, i + 1).balances;
           && r.rrsp[i] == b.rrsp && r.fhsa[i] == b.fhsa && r.tfsa[i] == b.tfsa && r.brokerage[i] == b.brokerage
           && r.netWorth[i] == NetWorth(p, b)
  {
    if n > 0 {
      SimulateShape(p, deltaFraction, n - 1);
    }
  }

  /** After any number of years, no contribution room is negative. */
  lemma RoomsStayNonNegative(p: Params, deltaFraction: real, n: nat)
    ensures var r := After(p, deltaFraction, n).rooms;
      r.rrsp >= 0.0 && r.fhsa >= 0.0 && r.tfsa >= 0.0
  {
  }

  /**
   * From the first simulated year on, every year's contributions add up to
   * exactly that year's cash.
   */
  lemma YearlyCashFullyInvested(p: Params, deltaFraction: real, s: State)
    ensures var w := RunWaterfall(Cash(s.salary, s.bonus, s.expenses, deltaFraction),
                                  Grow(s.balances, p.investmentYield), Grant(s.rooms, s.salary, s.bonus), 1.0);
      && Step(p, deltaFraction, s).balances == w.balances
      && Total(w.contributions) == Cash(s.salary, s.bonus, s.expenses, deltaFraction)
  {
    WaterfallConservesCash(Cash(s.salary, s.bonus, s.expenses, deltaFraction), Grow(s.balances, p.investmentYield),
                           Grant(s.rooms, s.salary, s.bonus));
  }

  /**
   * The contribution steps as the code runs them, once for year 0 (with
   * `afterRrsp` the tax factor `1 - tax_rate`) and once per simulated year
   * (with nothing withheld): they compute the waterfall and leave no cash.
   */
  method Contribute(cash: real, balances: Balances, rooms: Rooms, afterRrsp: real)
    returns (newBalances: Balances, newRooms: Rooms, cashLeft: real)
    ensures var w := RunWaterfall(cash, balances, rooms, afterRrsp);
      newBalances == w.balances && newRooms == w.rooms && cashLeft == w.cash == 0.0
  {
    var rrspBalance, fhsaBalance, tfsaBalance, brokerageBalance := balances.rrsp, balances.fhsa, balances.tfsa, balances.brokerage;
    var rrspRoom, fhsaRoom, tfsaRoom := rooms.rrsp, rooms.fhsa, rooms.tfsa;
    cashLeft := cash;

    var rrspContribution := Min(cashLeft, rrspRoom);
    rrspRoom := Max(0.0, rrspRoom - rrspContribution);
    rrspBalance := rrspBalance + rrspContribution;
    cashLeft := Max(0.0, cashLeft - rrspContribution) * afterRrsp;

    var fhsaContribution := Min(cashLeft, fhsaRoom);
    fhsaRoom := Max(0.0, fhsaRoom - fhsaContribution);
    fhsaBalance := fhsaBalance + fhsaContribution;
    cashLeft := Max(0.0, cashLeft - fhsaContribution);

    var tfsaContribution := Min(cashLeft, tfsaRoom);
    tfsaRoom := Max(0.0, tfsaRoom - tfsaContribution);
    tfsaBalance := tfsaBalance + tfsaContribution;
    cashLeft := Max(0.0, cashLeft - tfsaContribution);

    var brokerageContribution := Max(0.0, cashLeft);
    brokerageBalance := brokerageBalance + brokerageContribution;
    cashLeft := Max(0.0, cashLeft - brokerageContribution);

    newBalances := Balances(rrspBalance, fhsaBalance, tfsaBalance, brokerageBalance);
    newRooms := Rooms(rrspRoom, fhsaRoom, tfsaRoom);
  }

  /**
   * One pass of the code's yearly loop body over the simulation's variables
   * (grouped here in a `State`): new room, investment yield, the contributions
   * without tax withheld, then growth of salary, bonus and expenses.
   */
  method SimulateYear(p: Params, deltaFraction: real, s: State) returns (next: State)
    ensures next == Step(p, deltaFraction, s)
  {
    var rrspBalance, fhsaBalance, tfsaBalance, brokerageBalance := s.balances.rrsp, s.balances.fhsa, s.balances.tfsa, s.balances.brokerage;
    var rrspRoom, fhsaRoom, tfsaRoom := s.rooms.rrsp, s.rooms.fhsa, s.rooms.tfsa;
    var salary, bonus, expenses := s.salary, s.bonus, s.expenses;

    // New room
    rrspRoom := rrspRoom + Min((salary + bonus) * RrspRoomRate, RrspRoomCap);
    fhsaRoom := fhsaRoom + FhsaRoomGrant;
    tfsaRoom := tfsaRoom + TfsaRoomGrant;

    // Investment yield
    rrspBalance := Compound(rrspBalance, p.investmentYield);
    fhsaBalance := Compound(fhsaBalance, p.investmentYield);
    tfsaBalance := Compound(tfsaBalance, p.investmentYield);
    brokerageBalance := Compound(brokerageBalance, p.investmentYield);

    // Contributions
    var cash := Cash(salary, bonus, expenses, deltaFraction);
    assert Balances(rrspBalance, fhsaBalance, tfsaBalance, brokerageBalance) == Grow(s.balances, p.investmentYield);
    assert Rooms(rrspRoom, fhsaRoom, tfsaRoom) == Grant(s.rooms, s.salary, s.bonus);
    var balances, rooms;
    balances, rooms, cash := Contribute(cash, Balances(rrspBalance, fhsaBalance, tfsaBalance, brokerageBalance),
                                        Rooms(rrspRoom, fhsaRoom, tfsaRoom), 1.0);

    // Growth for the next year
    salary := Compound(salary, p.salaryGrowth);
    bonus := Compound(bonus, p.bonusGrowth);
    expenses := Compound(expenses, p.expensesGrowth);
    next := State(balances, rooms, salary, bonus, expenses);
  }

  /**
   * `simulate_account_balances`: year 0, then `years` simulated years (none
   * when `years` is negative, as with `range(years)`), each appending the
   * balances and the net worth to the lists.
   */
  method SimulateAccountBalances(p: Params, deltaFraction: real) returns (r: Projection)
    ensures r == Simulate(p, deltaFraction, if p.years >= 0 then p.years else 0)
  {
    var state := State(
      Balances(p.initialRrspBalance, p.initialFhsaBalance, p.initialTfsaBalance, p.initialBrokerageBalance),
      Rooms(p.initialRrspRoom, p.initialFhsaRoom, p.initialTfsaRoom),
      p.initialSalary, p.initialBonus, p.initialExpenses);
    var rrspBalances, fhsaBalances, tfsaBalances, brokerageBalances, netWorths := [], [], [], [], [];

    // Year 0: tax is withheld from the cash left after the RRSP
    var cash := Cash(state.salary, state.bonus, state.expenses, deltaFraction);
    var balances, rooms;
    balances, rooms, cash := Contribute(cash, state.balances, state.rooms, 1.0 - p.taxRate);
    state := state.(balances := balances, rooms := rooms);

    var year := 0;
    while year < p.years
      invariant 0 <= year && (p.years >= 0 ==> year <= p.years) && (p.years < 0 ==> year == 0)
      invariant state == After(p, deltaFraction, year)
      invariant Projection(rrspBalances, fhsaBalances, tfsaBalances, brokerageBalances, netWorths) == Simulate(p, deltaFraction, year)
    {
      state := SimulateYear(p, deltaFraction, state);
      var b := state.balances;
      rrspBalances := rrspBalances + [b.rrsp];
      fhsaBalances := fhsaBalances + [b.fhsa];
      tfsaBalances := tfsaBalances + [b.tfsa];
      brokerageBalances := brokerageBalances + [b.brokerage];
      netWorths := netWorths + [AfterTax(b.rrsp, p.initialRrspBalance, p.taxRate) + b.fhsa + b.tfsa
                                + AfterTax(b.brokerage, p.initialBrokerageBalance, p.taxRate)];
      year := year + 1;
    }
    r := Projection(rrspBalances, fhsaBalances, tfsaBalances, brokerageBalances, netWorths);
  }
}
