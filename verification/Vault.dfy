/** The vault transactions of the Ergo connector: deposits merged in, withdrawals paid out. */
module Vault {
  import opened Prelude

  type TokenId(==, !new)

  const I64_MAX: nat := 9223372036854775807
  const DEPOSIT_FEE: nat := 1000000

  datatype Token = Token(id: TokenId, amount: nat)
  datatype Coins = Coins(value: nat, tokens: seq<Token>)

  /** Inputs and outputs of a transaction; the vault box comes first on both sides. */
  datatype VaultTx = VaultTx(inputs: seq<Coins>, outputs: seq<Coins>)

  function Position(tokens: seq<Token>, id: TokenId): Option<nat> {
    if tokens == [] then None
    else if tokens[0].id == id then Some(0)
    else
      var rest := Position(tokens[1..], id);
      if rest.None? then None else Some(rest.value + 1)
  }

  lemma {:induction false} PositionFound(tokens: seq<Token>, id: TokenId)
    ensures
      var p := Position(tokens, id);
      match p {
        case None => forall i :: 0 <= i < |tokens| ==> tokens[i].id != id
        case Some(i) => i < |tokens| && tokens[i].id == id && forall j :: 0 <= j < i ==> tokens[j].id != id
      }
  {
    if tokens != [] && tokens[0].id != id {
      PositionFound(tokens[1..], id);
    }
  }

  /** One token into the list: added where its id is first found, else appended; `None` on overflow. */
  function MergeToken(tokens: seq<Token>, t: Token): Option<seq<Token>> {
    PositionFound(tokens, t.id);
    match Position(tokens, t.id)
    case None => Some(tokens + [t])
    case Some(i) =>
      var amount := tokens[i].amount + t.amount;
      if amount > I64_MAX then None else Some(tokens[i := Token(t.id, amount)])
  }

  function MergeTokens(tokens: seq<Token>, more: seq<Token>): Option<seq<Token>>
    decreases |more|
  {
    if more == [] then Some(tokens)
    else
      var next := MergeToken(tokens, more[0]);
      if next.None? then None else MergeTokens(next.value, more[1..])
  }

  /** The tokens of all deposits, in order. */
  function DepositTokens(deposits: seq<Coins>): seq<Token> {
    if deposits == [] then [] else deposits[0].tokens + DepositTokens(deposits[1..])
  }

  function TotalValue(boxes: seq<Coins>): nat {
    if boxes == [] then 0 else boxes[0].value + TotalValue(boxes[1..])
  }

  /** How much of a token a list holds. */
  function AmountOf(tokens: seq<Token>, id: TokenId): nat {
    if tokens == [] then 0 else (if tokens[0].id == id then tokens[0].amount else 0) + AmountOf(tokens[1..], id)
  }

  function AmountIn(boxes: seq<Coins>, id: TokenId): nat {
    if boxes == [] then 0 else AmountOf(boxes[0].tokens, id) + AmountIn(boxes[1..], id)
  }

  predicate DistinctIds(tokens: seq<Token>) {
    forall i, j :: 0 <= i < j < |tokens| ==> tokens[i].id != tokens[j].id
  }

  // ----- amounts -----

  lemma {:induction false} AmountJoins(a: seq<Token>, b: seq<Token>, id: TokenId)
    ensures AmountOf(a + b, id) == AmountOf(a, id) + AmountOf(b, id)
    decreases |a|
  {
    if a == [] {
      assert a + b == b;
    } else {
      AmountJoins(a[1..], b, id);
      assert (a + b)[1..] == a[1..] + b;
    }
  }

  lemma {:induction false} AmountUpdated(tokens: seq<Token>, i: nat, amount: nat, id: TokenId)
    requires i < |tokens|
    ensures AmountOf(tokens[i := Token(tokens[i].id, amount)], id) ==
            AmountOf(tokens, id) + if tokens[i].id == id then amount - tokens[i].amount else 0
    decreases |tokens|
  {
    var updated := tokens[i := Token(tokens[i].id, amount)];
    if i > 0 {
      AmountUpdated(tokens[1..], i - 1, amount, id);
      assert updated[1..] == tokens[1..][i - 1 := Token(tokens[i].id, amount)];
    } else {
      assert updated[1..] == tokens[1..];
    }
  }

  /** In a list without repeated ids a token's amount is the amount of its one entry. */
  lemma {:induction false} AmountOfEntry(tokens: seq<Token>, i: nat)
    requires DistinctIds(tokens) && i < |tokens|
    ensures AmountOf(tokens, tokens[i].id) == tokens[i].amount
    decreases |tokens|
  {
    if i > 0 {
      assert tokens[0].id != tokens[i].id;
      AmountOfEntry(tokens[1..], i - 1);
    } else {
      AmountOfAbsent(tokens[1..], tokens[0].id);
    }
  }

  lemma {:induction false} AmountOfAbsent(tokens: seq<Token>, id: TokenId)
    requires forall i :: 0 <= i < |tokens| ==> tokens[i].id != id
    ensures AmountOf(tokens, id) == 0
  {
    if tokens != [] {
      AmountOfAbsent(tokens[1..], id);
    }
  }

  lemma {:induction false} DepositAmounts(deposits: seq<Coins>, id: TokenId)
    ensures AmountOf(DepositTokens(deposits), id) == AmountIn(deposits, id)
  {
    if deposits != [] {
      DepositAmounts(deposits[1..], id);
      AmountJoins(deposits[0].tokens, DepositTokens(deposits[1..]), id);
    }
  }

  // ----- merging -----

  /** Merging one token adds its amount to its id and changes no other, and keeps ids distinct and in place. */
  lemma MergeTokenAdds(tokens: seq<Token>, t: Token, id: TokenId)
    requires MergeToken(tokens, t).Some?
    ensures
      var r := MergeToken(tokens, t).value;
      && AmountOf(r, id) == AmountOf(tokens, id) + (if t.id == id then t.amount else 0)
      && |tokens| <= |r| && (forall i :: 0 <= i < |tokens| ==> r[i].id == tokens[i].id)
      && (DistinctIds(tokens) ==> DistinctIds(r))
  {
    PositionFound(tokens, t.id);
    match Position(tokens, t.id)
    case None =>
      AmountJoins(tokens, [t], id);
      assert AmountOf([t], id) == if t.id == id then t.amount else 0;
    case Some(i) =>
      AmountUpdated(tokens, i, tokens[i].amount + t.amount, id);
  }

  /** Conservation: every id ends with what the vault and the deposits held together. */
  lemma {:induction false} MergeConserves(tokens: seq<Token>, more: seq<Token>, id: TokenId)
    requires MergeTokens(tokens, more).Some?
    ensures
      var r := MergeTokens(tokens, more).value;
      && AmountOf(r, id) == AmountOf(tokens, id) + AmountOf(more, id)
      && |tokens| <= |r| && (forall i :: 0 <= i < |tokens| ==> r[i].id == tokens[i].id)
      && (DistinctIds(tokens) ==> DistinctIds(r))
    decreases |more|
  {
    if more != [] {
      MergeTokenAdds(tokens, more[0], id);
      MergeConserves(MergeToken(tokens, more[0]).value, more[1..], id);
    }
  }

  ghost predicate TotalsFit(tokens: seq<Token>, more: seq<Token>) {
    forall id :: AmountOf(tokens, id) + AmountOf(more, id) <= I64_MAX
  }

  lemma {:induction false} AmountAtLeast(tokens: seq<Token>, i: nat)
    requires i < |tokens|
    ensures AmountOf(tokens, tokens[i].id) >= tokens[i].amount
    decreases |tokens|
  {
    if i > 0 {
      AmountAtLeast(tokens[1..], i - 1);
    }
  }

  lemma FitStep(tokens: seq<Token>, more: seq<Token>)
    requires DistinctIds(tokens) && more != [] && MergeToken(tokens, more[0]).Some?
    ensures TotalsFit(tokens, more) <==> TotalsFit(MergeToken(tokens, more[0]).value, more[1..])
  {
    var next := MergeToken(tokens, more[0]).value;
    forall id
      ensures AmountOf(next, id) + AmountOf(more[1..], id) == AmountOf(tokens, id) + AmountOf(more, id)
    {
      MergeTokenAdds(tokens, more[0], id);
    }
  }

  /** The merge panics exactly when some token's total leaves the 64-bit range. */
  lemma {:induction false} MergeSucceedsIff(tokens: seq<Token>, more: seq<Token>)
    requires DistinctIds(tokens) && forall id :: AmountOf(tokens, id) <= I64_MAX
    requires forall i :: 0 <= i < |more| ==> more[i].amount <= I64_MAX
    ensures MergeTokens(tokens, more).Some? <==> TotalsFit(tokens, more)
    decreases |more|
  {
    if more != [] {
      var t := more[0];
      PositionFound(tokens, t.id);
      if MergeToken(tokens, t).None? {
        AmountOfEntry(tokens, Position(tokens, t.id).value);
        AmountAtLeast(more, 0);
        assert AmountOf(tokens, t.id) + AmountOf(more, t.id) > I64_MAX;
      } else {
        var next := MergeToken(tokens, t).value;
        forall id ensures AmountOf(next, id) <= I64_MAX {
          MergedFits(tokens, t, id);
        }
        MergeTokenAdds(tokens, t, t.id);
        FitStep(tokens, more);
        MergeSucceedsIff(next, more[1..]);
      }
    }
  }

  lemma MergedFits(tokens: seq<Token>, t: Token, id: TokenId)
    requires DistinctIds(tokens) && AmountOf(tokens, id) <= I64_MAX && t.amount <= I64_MAX
    requires MergeToken(tokens, t).Some?
    ensures AmountOf(MergeToken(tokens, t).value, id) <= I64_MAX
  {
    MergeTokenAdds(tokens, t, id);
    PositionFound(tokens, t.id);
    match Position(tokens, t.id)
    case None => AmountOfAbsent(tokens, t.id);
    case Some(i) => AmountOfEntry(tokens, i);
  }

  lemma {:induction false} MergeJoins(tokens: seq<Token>, a: seq<Token>, b: seq<Token>)
    ensures MergeTokens(tokens, a + b) ==
            if MergeTokens(tokens, a).None? then None else MergeTokens(MergeTokens(tokens, a).value, b)
    decreases |a|
  {
    if a == [] {
      assert a + b == b;
    } else {
      assert (a + b)[0] == a[0] && (a + b)[1..] == a[1..] + b;
      if MergeToken(tokens, a[0]).Some? {
        MergeJoins(MergeToken(tokens, a[0]).value, a[1..], b);
      }
    }
  }

  // ----- deposits -----

  /** The deposit transaction; `None` where an amount overflows or the vault output is below the minimum. */
  function DepositTx(vault: Coins, deposits: seq<Coins>, minValue: nat): Option<VaultTx> {
    var tokens := MergeTokens(vault.tokens, DepositTokens(deposits));
    var total := vault.value + TotalValue(deposits);
    if tokens.None? || total > I64_MAX || total < DEPOSIT_FEE + minValue then None
    else Some(VaultTx([vault] + deposits, [Coins(total - DEPOSIT_FEE, tokens.value), Coins(DEPOSIT_FEE, [])]))
  }

  method MergeDeposit(tokens: seq<Token>, more: seq<Token>) returns (r: Option<seq<Token>>)
    ensures r == MergeTokens(tokens, more)
  {
    var merged := tokens;
    for k := 0 to |more|
      invariant MergeTokens(merged, more[k..]) == MergeTokens(tokens, more)
    {
      var t := more[k];
      assert more[k..][0] == t && more[k..][1..] == more[k + 1..];
      var i := 0;
      PositionFound(merged, t.id);
      while i < |merged| && merged[i].id != t.id
        invariant i <= |merged| && forall j :: 0 <= j < i ==> merged[j].id != t.id
      {
        i := i + 1;
      }
      if i < |merged| {
        assert Position(merged, t.id) == Some(i);
        var amount := merged[i].amount + t.amount;
        if amount > I64_MAX {
          return None;
        }
        merged := merged[i := Token(t.id, amount)];
      } else {
        merged := merged + [t];
      }
    }
    r := Some(merged);
  }

  /** Taking the first of the deposits left. */
  lemma NextDeposit(tokens: seq<Token>, deposits: seq<Coins>, k: nat)
    requires k < |deposits|
    ensures TotalValue(deposits[k..]) == deposits[k].value + TotalValue(deposits[k + 1..])
    ensures
      var merged := MergeTokens(tokens, deposits[k].tokens);
      MergeTokens(tokens, DepositTokens(deposits[k..])) ==
      if merged.None? then None else MergeTokens(merged.value, DepositTokens(deposits[k + 1..]))
  {
    assert deposits[k..][0] == deposits[k] && deposits[k..][1..] == deposits[k + 1..];
    MergeJoins(tokens, deposits[k].tokens, DepositTokens(deposits[k + 1..]));
  }

  method ProcessDeposits(vault: Coins, deposits: seq<Coins>, minValue: nat) returns (r: Option<VaultTx>)
    ensures r == DepositTx(vault, deposits, minValue)
    ensures r.Some? ==>
      && r.value.inputs == [vault] + deposits && |r.value.outputs| == 2
      && r.value.outputs[0].value == vault.value + TotalValue(deposits) - 1_000_000
      && Some(r.value.outputs[0].tokens) == MergeTokens(vault.tokens, DepositTokens(deposits))
      && r.value.outputs[1] == Coins(1_000_000, [])
  {
    var tokens := vault.tokens;
    var boxes := [vault];
    var total := 0;
    ghost var all := MergeTokens(vault.tokens, DepositTokens(deposits));
    assert deposits[0..] == deposits;
    for k := 0 to |deposits|
      invariant MergeTokens(tokens, DepositTokens(deposits[k..])) == all
      invariant total + TotalValue(deposits[k..]) == TotalValue(deposits)
      invariant boxes == [vault] + deposits[..k]
    {
      var d := deposits[k];
      NextDeposit(tokens, deposits, k);
      var merged := MergeDeposit(tokens, d.tokens);
      if merged.None? {
        return None;
      }
      tokens := merged.value;
      total := total + d.value;
      boxes := boxes + [d];
    }
    assert deposits[..|deposits|] == deposits && deposits[|deposits|..] == [];
    if vault.value + total > I64_MAX || vault.value + total < DEPOSIT_FEE + minValue {
      return None;
    }
    r := Some(VaultTx(boxes, [Coins(vault.value + total - DEPOSIT_FEE, tokens), Coins(DEPOSIT_FEE, [])]));
  }

  lemma PairTotals(a: Coins, b: Coins, id: TokenId)
    ensures TotalValue([a, b]) == a.value + b.value
    ensures AmountIn([a, b], id) == AmountOf(a.tokens, id) + AmountOf(b.tokens, id)
  {
    assert [a, b][1..] == [b];
    assert TotalValue([b]) == b.value;
    assert AmountIn([b], id) == AmountOf(b.tokens, id);
  }

  /** A deposit transaction spends the vault and all deposits, pays the fee of a million nano-ergs to the miner and
      everything else back to the vault; tokens are neither created nor destroyed and listed once each. */
  lemma DepositConserves(vault: Coins, deposits: seq<Coins>, minValue: nat, id: TokenId)
    requires DepositTx(vault, deposits, minValue).Some?
    ensures
      var tx := DepositTx(vault, deposits, minValue).value;
      && tx.inputs == [vault] + deposits && |tx.outputs| == 2 && tx.outputs[1] == Coins(1_000_000, [])
      && tx.outputs[0].value == vault.value + TotalValue(deposits) - 1_000_000 && tx.outputs[0].value >= minValue
      && TotalValue(tx.inputs) == TotalValue(tx.outputs)
      && AmountIn(tx.inputs, id) == AmountIn(tx.outputs, id) == AmountOf(tx.outputs[0].tokens, id)
      && AmountOf(tx.outputs[0].tokens, id) == AmountOf(vault.tokens, id) + AmountIn(deposits, id)
      && (DistinctIds(vault.tokens) ==> DistinctIds(tx.outputs[0].tokens))
  {
    var tx := DepositTx(vault, deposits, minValue).value;
    MergeConserves(vault.tokens, DepositTokens(deposits), id);
    DepositAmounts(deposits, id);
    assert tx.inputs[1..] == deposits;
    PairTotals(tx.outputs[0], Coins(DEPOSIT_FEE, []), id);
  }

  /** When a deposit transaction can be built at all. */
  lemma DepositPossibleIff(vault: Coins, deposits: seq<Coins>, minValue: nat)
    requires DistinctIds(vault.tokens) && forall id :: AmountOf(vault.tokens, id) <= I64_MAX
    requires forall t :: t in DepositTokens(deposits) ==> t.amount <= I64_MAX
    ensures DepositTx(vault, deposits, minValue).Some? <==>
      && (forall id :: AmountOf(vault.tokens, id) + AmountIn(deposits, id) <= I64_MAX)
      && DEPOSIT_FEE + minValue <= vault.value + TotalValue(deposits) <= I64_MAX
  {
    var more := DepositTokens(deposits);
    MergeSucceedsIff(vault.tokens, more);
    if TotalsFit(vault.tokens, more) {
      forall id ensures AmountOf(vault.tokens, id) + AmountIn(deposits, id) <= I64_MAX {
        DepositAmounts(deposits, id);
      }
    } else {
      var id :| AmountOf(vault.tokens, id) + AmountOf(more, id) > I64_MAX;
      DepositAmounts(deposits, id);
    }
  }

  // ----- withdrawals -----

  /** The withdrawal transaction: one output per terminal cell between the vault and the fee. */
  function WithdrawalTx(vault: Coins, cells: seq<Coins>, fee: nat, minValue: nat): Option<VaultTx> {
    var paid := TotalValue(cells);
    if fee < minValue || paid > I64_MAX || vault.value < fee + paid + minValue then None
    else Some(VaultTx([vault], [Coins(vault.value - fee - paid, vault.tokens)] + cells + [Coins(fee, [])]))
  }

  method BuildWithdrawal(vault: Coins, cells: seq<Coins>, fee: nat, minValue: nat) returns (r: Option<VaultTx>)
    ensures r == WithdrawalTx(vault, cells, fee, minValue)
    ensures r.Some? ==>
      && r.value.inputs == [vault] && |r.value.outputs| == |cells| + 2
      && r.value.outputs[0] == Coins(vault.value - fee - TotalValue(cells), vault.tokens)
      && (forall k :: 0 <= k < |cells| ==> r.value.outputs[k + 1] == cells[k])
      && r.value.outputs[|cells| + 1] == Coins(fee, [])
  {
    var outputs: seq<Coins> := [];
    var paid := 0;
    assert cells[0..] == cells;
    for k := 0 to |cells|
      invariant outputs == cells[..k] && paid + TotalValue(cells[k..]) == TotalValue(cells)
    {
      assert cells[k..][0] == cells[k] && cells[k..][1..] == cells[k + 1..];
      outputs := outputs + [cells[k]];
      paid := paid + cells[k].value;
    }
    assert outputs == cells;
    if fee < minValue || paid > I64_MAX || vault.value < fee + paid + minValue {
      return None;
    }
    r := Some(VaultTx([vault], [Coins(vault.value - fee - paid, vault.tokens)] + outputs + [Coins(fee, [])]));
  }

  lemma {:induction false} TotalJoins(a: seq<Coins>, b: seq<Coins>)
    ensures TotalValue(a + b) == TotalValue(a) + TotalValue(b)
    decreases |a|
  {
    if a == [] {
      assert a + b == b;
    } else {
      TotalJoins(a[1..], b);
      assert (a + b)[1..] == a[1..] + b;
    }
  }

  lemma {:induction false} BoxesJoin(a: seq<Coins>, b: seq<Coins>, id: TokenId)
    ensures AmountIn(a + b, id) == AmountIn(a, id) + AmountIn(b, id)
    decreases |a|
  {
    if a == [] {
      assert a + b == b;
    } else {
      BoxesJoin(a[1..], b, id);
      assert (a + b)[1..] == a[1..] + b;
    }
  }

  lemma OneBox(c: Coins, id: TokenId)
    ensures TotalValue([c]) == c.value && AmountIn([c], id) == AmountOf(c.tokens, id)
  {
    assert [c][1..] == [];
  }

  /** Nano-ergs in equal nano-ergs out, every cell is paid in order, the fee comes last and the vault keeps its token
      list; what the cells pay out in tokens is therefore not taken from it. */
  lemma WithdrawalConserves(vault: Coins, cells: seq<Coins>, fee: nat, minValue: nat, id: TokenId)
    requires WithdrawalTx(vault, cells, fee, minValue).Some?
    ensures
      var tx := WithdrawalTx(vault, cells, fee, minValue).value;
      && tx.inputs == [vault] && tx.outputs[0].tokens == vault.tokens && tx.outputs[0].value >= minValue
      && TotalValue(tx.inputs) == TotalValue(tx.outputs) == vault.value
      && tx.outputs[1..|tx.outputs| - 1] == cells && tx.outputs[|tx.outputs| - 1] == Coins(fee, [])
      && AmountIn(tx.outputs, id) == AmountIn(tx.inputs, id) + AmountIn(cells, id)
      && (AmountIn(tx.outputs, id) == AmountIn(tx.inputs, id) <==> AmountIn(cells, id) == 0)
  {
    var tx := WithdrawalTx(vault, cells, fee, minValue).value;
    var rest, miner := tx.outputs[0], Coins(fee, []);
    TotalJoins([rest] + cells, [miner]);
    TotalJoins([rest], cells);
    BoxesJoin([rest] + cells, [miner], id);
    BoxesJoin([rest], cells, id);
    OneBox(rest, id);
    OneBox(miner, id);
    OneBox(vault, id);
  }

  /** When a withdrawal can be built: the fee and what is left are at least the minimum of a box. */
  lemma WithdrawalPossibleIff(vault: Coins, cells: seq<Coins>, fee: nat, minValue: nat)
    requires vault.value <= I64_MAX
    ensures WithdrawalTx(vault, cells, fee, minValue).Some? <==> minValue <= fee && fee + TotalValue(cells) + minValue <= vault.value
  {
  }
}
