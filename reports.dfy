/** lib/utils.ts: the cash-flow statement, the income statement (DRE) and the
    profit of one project, all filter-and-sum over the three lists.

    Dates are the stored ISO strings; `time` is what `parseISO` makes of a
    string, as a point on an ordered time line, and an interval holds the
    points between its bounds inclusive (`isWithinInterval`). */
module Reports {
  import opened Wrappers
  import opened Types
  import opened Seqs
  import opened Text

  datatype Interval = Interval(start: int, end: int)

  /** `isWithinInterval`: the two bounds are put in order first, so the
      interval holds the points between them inclusive whichever bound is
      given first. */
  function Within(t: int, iv: Interval): (b: bool)
    ensures iv.start <= iv.end ==> (b <==> iv.start <= t <= iv.end)
    ensures iv.end <= iv.start ==> (b <==> iv.end <= t <= iv.start)
  {
    var lo := if iv.start <= iv.end then iv.start else iv.end;
    var hi := if iv.start <= iv.end then iv.end else iv.start;
    lo <= t <= hi
  }

  /** Swapping the bounds gives the same interval. */
  lemma WithinIgnoresBoundOrder(t: int, a: int, b: int)
    ensures Within(t, Interval(a, b)) <==> Within(t, Interval(b, a))
  {
  }

  /** A movement of the given kind dated inside the interval. */
  function MovimentoNoPeriodo(tipo: TipoMovimentacao, iv: Interval, time: string -> int): Movimentacao -> bool {
    (m: Movimentacao) => m.tipo == tipo && Within(time(m.data), iv)
  }

  /** A payable that is paid, has a payment date, and was paid inside the
      interval. */
  function PagaNoPeriodo(iv: Interval, time: string -> int): ContaPagar -> bool {
    (c: ContaPagar) => c.status == Paga && Truthy(c.dataPagamento) && Within(time(c.dataPagamento.value), iv)
  }

  /** A receivable that is received, has a receipt date, and was received
      inside the interval. */
  function RecebidaNoPeriodo(iv: Interval, time: string -> int): ContaReceber -> bool {
    (c: ContaReceber) => c.status == Recebida && Truthy(c.dataRecebimento) && Within(time(c.dataRecebimento.value), iv)
  }

  datatype FluxoCaixa = FluxoCaixa(entradas: real, saidas: real, saldo: real)

  /** `calculateFluxoCaixa`. */
  function CalculateFluxoCaixa(movimentacoes: seq<Movimentacao>, contasPagar: seq<ContaPagar>,
                               contasReceber: seq<ContaReceber>, iv: Interval,
                               time: string -> int): (r: FluxoCaixa)
    ensures r.saldo == r.entradas - r.saidas
  {
    var entradas := SumWhere(movimentacoes, MovimentoNoPeriodo(Entrada, iv, time), MovimentacaoValor);
    var saidas := SumWhere(movimentacoes, MovimentoNoPeriodo(Saida, iv, time), MovimentacaoValor);
    var pagas := SumWhere(contasPagar, PagaNoPeriodo(iv, time), ContaPagarValor);
    var recebidas := SumWhere(contasReceber, RecebidaNoPeriodo(iv, time), ContaReceberValor);
    var totalEntradas := entradas + recebidas;
    var totalSaidas := saidas + pagas;
    FluxoCaixa(totalEntradas, totalSaidas, totalEntradas - totalSaidas)
  }

  datatype Resultado = Resultado(receitas: real, despesas: real, lucro: real, margem: real)

  /** `lucro` and `margem` from revenue and expenses: the margin is the profit
      as a percentage of revenue, and 0 when there is no positive revenue. */
  function ResultadoOf(receitas: real, despesas: real): (r: Resultado)
    ensures r.receitas == receitas && r.despesas == despesas
    ensures r.lucro == receitas - despesas
    ensures receitas <= 0.0 ==> r.margem == 0.0
    ensures receitas > 0.0 ==> r.margem * receitas == r.lucro * 100.0
  {
    var lucro := receitas - despesas;
    var margem := if receitas > 0.0 then (lucro / receitas) * 100.0 else 0.0;
    Resultado(receitas, despesas, lucro, margem)
  }

  /** With positive revenue and no negative expense the margin is at most
      100%, and it is negative exactly when expenses exceed revenue. */
  lemma MargemBounds(receitas: real, despesas: real)
    requires receitas > 0.0 && despesas >= 0.0
    ensures ResultadoOf(receitas, despesas).margem <= 100.0
    ensures ResultadoOf(receitas, despesas).margem < 0.0 <==> despesas > receitas
  {
    var r := ResultadoOf(receitas, despesas);
    assert r.margem * receitas <= 100.0 * receitas;
    if r.margem < 0.0 {
      assert r.margem * receitas < 0.0;
    } else {
      assert r.margem * receitas >= 0.0;
    }
  }

  /** `calculateDRE`: each side sums one concatenated list. */
  function CalculateDRE(movimentacoes: seq<Movimentacao>, contasPagar: seq<ContaPagar>,
                        contasReceber: seq<ContaReceber>, iv: Interval,
                        time: string -> int): (r: Resultado)
    ensures r.lucro == r.receitas - r.despesas
    ensures r.receitas <= 0.0 ==> r.margem == 0.0
    ensures r.receitas > 0.0 ==> r.margem * r.receitas == r.lucro * 100.0
  {
    var receitas := Sum(Map(Filter(movimentacoes, MovimentoNoPeriodo(Entrada, iv, time)), MovimentacaoValor)
                      + Map(Filter(contasReceber, RecebidaNoPeriodo(iv, time)), ContaReceberValor));
    var despesas := Sum(Map(Filter(movimentacoes, MovimentoNoPeriodo(Saida, iv, time)), MovimentacaoValor)
                      + Map(Filter(contasPagar, PagaNoPeriodo(iv, time)), ContaPagarValor));
    ResultadoOf(receitas, despesas)
  }

  /** On the same inputs the income statement's revenue and expenses are the
      cash flow's inflow and outflow, and its profit is the cash balance. */
  lemma DreMatchesFluxoCaixa(movimentacoes: seq<Movimentacao>, contasPagar: seq<ContaPagar>,
                             contasReceber: seq<ContaReceber>, iv: Interval, time: string -> int)
    ensures CalculateDRE(movimentacoes, contasPagar, contasReceber, iv, time).receitas
            == CalculateFluxoCaixa(movimentacoes, contasPagar, contasReceber, iv, time).entradas
    ensures CalculateDRE(movimentacoes, contasPagar, contasReceber, iv, time).despesas
            == CalculateFluxoCaixa(movimentacoes, contasPagar, contasReceber, iv, time).saidas
    ensures CalculateDRE(movimentacoes, contasPagar, contasReceber, iv, time).lucro
            == CalculateFluxoCaixa(movimentacoes, contasPagar, contasReceber, iv, time).saldo
  {
    SumAppend(Map(Filter(movimentacoes, MovimentoNoPeriodo(Entrada, iv, time)), MovimentacaoValor),
              Map(Filter(contasReceber, RecebidaNoPeriodo(iv, time)), ContaReceberValor));
    SumAppend(Map(Filter(movimentacoes, MovimentoNoPeriodo(Saida, iv, time)), MovimentacaoValor),
              Map(Filter(contasPagar, PagaNoPeriodo(iv, time)), ContaPagarValor));
  }

  /** A movement dated outside the interval changes no total; one inside it
      adds its amount to the inflow or to the outflow, by its kind. */
  lemma FluxoCaixaAddMovimentacao(movimentacoes: seq<Movimentacao>, m: Movimentacao,
                                  contasPagar: seq<ContaPagar>, contasReceber: seq<ContaReceber>,
                                  iv: Interval, time: string -> int)
    ensures var before := CalculateFluxoCaixa(movimentacoes, contasPagar, contasReceber, iv, time);
            var after := CalculateFluxoCaixa(movimentacoes + [m], contasPagar, contasReceber, iv, time);
            && (!Within(time(m.data), iv) ==> after == before)
            && (Within(time(m.data), iv) && m.tipo == Entrada ==>
                  after.entradas == before.entradas + m.valor && after.saidas == before.saidas)
            && (Within(time(m.data), iv) && m.tipo == Saida ==>
                  after.saidas == before.saidas + m.valor && after.entradas == before.entradas)
  {
    var entrada, saida := MovimentoNoPeriodo(Entrada, iv, time), MovimentoNoPeriodo(Saida, iv, time);
    SumWhereSnoc(movimentacoes, m, entrada, MovimentacaoValor);
    SumWhereSnoc(movimentacoes, m, saida, MovimentacaoValor);
    assert entrada(m) <==> m.tipo == Entrada && Within(time(m.data), iv);
    assert saida(m) <==> m.tipo == Saida && Within(time(m.data), iv);
  }

  /** A payable counts toward the outflow only when it is paid, carries a
      payment date and that date lies in the interval; any other payable —
      pending, overdue, undated, or paid outside the interval — changes no
      total. */
  lemma FluxoCaixaAddContaPagar(movimentacoes: seq<Movimentacao>, contasPagar: seq<ContaPagar>,
                                c: ContaPagar, contasReceber: seq<ContaReceber>,
                                iv: Interval, time: string -> int)
    ensures var before := CalculateFluxoCaixa(movimentacoes, contasPagar, contasReceber, iv, time);
            var after := CalculateFluxoCaixa(movimentacoes, contasPagar + [c], contasReceber, iv, time);
            && (c.status != Paga || !Truthy(c.dataPagamento) ==> after == before)
            && (Truthy(c.dataPagamento) && !Within(time(c.dataPagamento.value), iv) ==> after == before)
            && (c.status == Paga && Truthy(c.dataPagamento) && Within(time(c.dataPagamento.value), iv) ==>
                  after.saidas == before.saidas + c.valor && after.entradas == before.entradas
                  && after.saldo == before.saldo - c.valor)
  {
    SumWhereSnoc(contasPagar, c, PagaNoPeriodo(iv, time), ContaPagarValor);
  }

  /** A receivable counts toward the inflow only when it is received, carries
      a receipt date and that date lies in the interval. */
  lemma FluxoCaixaAddContaReceber(movimentacoes: seq<Movimentacao>, contasPagar: seq<ContaPagar>,
                                  contasReceber: seq<ContaReceber>, c: ContaReceber,
                                  iv: Interval, time: string -> int)
    ensures var before := CalculateFluxoCaixa(movimentacoes, contasPagar, contasReceber, iv, time);
            var after := CalculateFluxoCaixa(movimentacoes, contasPagar, contasReceber + [c], iv, time);
            && (c.status != Recebida || !Truthy(c.dataRecebimento) ==> after == before)
            && (Truthy(c.dataRecebimento) && !Within(time(c.dataRecebimento.value), iv) ==> after == before)
            && (c.status == Recebida && Truthy(c.dataRecebimento) && Within(time(c.dataRecebimento.value), iv) ==>
                  after.entradas == before.entradas + c.valor && after.saidas == before.saidas
                  && after.saldo == before.saldo + c.valor)
  {
    SumWhereSnoc(contasReceber, c, RecebidaNoPeriodo(iv, time), ContaReceberValor);
  }

  /** The project filters: same project id, the right kind of movement, and
      only settled accounts. No date is looked at. */
  function MovimentoDoProjeto(tipo: TipoMovimentacao, projetoId: string): Movimentacao -> bool {
    (m: Movimentacao) => m.tipo == tipo && m.projetoId == Some(projetoId)
  }

  function RecebidaDoProjeto(projetoId: string): ContaReceber -> bool {
    (c: ContaReceber) => c.projetoId == Some(projetoId) && c.status == Recebida
  }

  function PagaDoProjeto(projetoId: string): ContaPagar -> bool {
    (c: ContaPagar) => c.projetoId == Some(projetoId) && c.status == Paga
  }

  /** `calculateProjetoLucro`. */
  function CalculateProjetoLucro(projetoId: string, movimentacoes: seq<Movimentacao>,
                                 contasPagar: seq<ContaPagar>, contasReceber: seq<ContaReceber>): (r: Resultado)
    ensures r.lucro == r.receitas - r.despesas
    ensures r.receitas <= 0.0 ==> r.margem == 0.0
    ensures r.receitas > 0.0 ==> r.margem * r.receitas == r.lucro * 100.0
  {
    var receitas := Sum(Map(Filter(movimentacoes, MovimentoDoProjeto(Entrada, projetoId)), MovimentacaoValor)
                      + Map(Filter(contasReceber, RecebidaDoProjeto(projetoId)), ContaReceberValor));
    var despesas := Sum(Map(Filter(movimentacoes, MovimentoDoProjeto(Saida, projetoId)), MovimentacaoValor)
                      + Map(Filter(contasPagar, PagaDoProjeto(projetoId)), ContaPagarValor));
    ResultadoOf(receitas, despesas)
  }

  /** A project's revenue: its own inflow movements plus its received
      accounts. */
  function ProjetoReceitas(projetoId: string, movimentacoes: seq<Movimentacao>,
                           contasReceber: seq<ContaReceber>): real {
    SumWhere(movimentacoes, MovimentoDoProjeto(Entrada, projetoId), MovimentacaoValor)
    + SumWhere(contasReceber, RecebidaDoProjeto(projetoId), ContaReceberValor)
  }

  /** A project's expenses: its own outflow movements plus its paid
      accounts. */
  function ProjetoDespesas(projetoId: string, movimentacoes: seq<Movimentacao>,
                           contasPagar: seq<ContaPagar>): real {
    SumWhere(movimentacoes, MovimentoDoProjeto(Saida, projetoId), MovimentacaoValor)
    + SumWhere(contasPagar, PagaDoProjeto(projetoId), ContaPagarValor)
  }

  /** Summing the concatenated lists is summing each: the project's result is
      that of its revenue and its expenses. */
  lemma ProjetoLucroTotals(projetoId: string, movimentacoes: seq<Movimentacao>,
                           contasPagar: seq<ContaPagar>, contasReceber: seq<ContaReceber>)
    ensures CalculateProjetoLucro(projetoId, movimentacoes, contasPagar, contasReceber)
            == ResultadoOf(ProjetoReceitas(projetoId, movimentacoes, contasReceber),
                           ProjetoDespesas(projetoId, movimentacoes, contasPagar))
  {
    SumAppend(Map(Filter(movimentacoes, MovimentoDoProjeto(Entrada, projetoId)), MovimentacaoValor),
              Map(Filter(contasReceber, RecebidaDoProjeto(projetoId)), ContaReceberValor));
    SumAppend(Map(Filter(movimentacoes, MovimentoDoProjeto(Saida, projetoId)), MovimentacaoValor),
              Map(Filter(contasPagar, PagaDoProjeto(projetoId)), ContaPagarValor));
  }

  /** Items of another project (or of none), receivables not received and
      payables not paid never change a project's result. */
  lemma ProjetoLucroIgnoresOthers(projetoId: string, movimentacoes: seq<Movimentacao>,
                                  contasPagar: seq<ContaPagar>, contasReceber: seq<ContaReceber>,
                                  m: Movimentacao, p: ContaPagar, c: ContaReceber)
    requires m.projetoId != Some(projetoId)
    requires p.projetoId != Some(projetoId) || p.status != Paga
    requires c.projetoId != Some(projetoId) || c.status != Recebida
    ensures CalculateProjetoLucro(projetoId, movimentacoes + [m], contasPagar + [p], contasReceber + [c])
            == CalculateProjetoLucro(projetoId, movimentacoes, contasPagar, contasReceber)
  {
    ProjetoLucroTotals(projetoId, movimentacoes, contasPagar, contasReceber);
    ProjetoLucroTotals(projetoId, movimentacoes + [m], contasPagar + [p], contasReceber + [c]);
    assert ProjetoReceitas(projetoId, movimentacoes + [m], contasReceber + [c])
           == ProjetoReceitas(projetoId, movimentacoes, contasReceber) by {
      SumWhereSnoc(movimentacoes, m, MovimentoDoProjeto(Entrada, projetoId), MovimentacaoValor);
      SumWhereSnoc(contasReceber, c, RecebidaDoProjeto(projetoId), ContaReceberValor);
    }
    assert ProjetoDespesas(projetoId, movimentacoes + [m], contasPagar + [p])
           == ProjetoDespesas(projetoId, movimentacoes, contasPagar) by {
      SumWhereSnoc(movimentacoes, m, MovimentoDoProjeto(Saida, projetoId), MovimentacaoValor);
      SumWhereSnoc(contasPagar, p, PagaDoProjeto(projetoId), ContaPagarValor);
    }
  }

  /** Lists that differ only in their dates. */
  ghost predicate SameButDates(a: seq<Movimentacao>, b: seq<Movimentacao>,
                               pa: seq<ContaPagar>, pb: seq<ContaPagar>,
                               ra: seq<ContaReceber>, rb: seq<ContaReceber>)
  {
    && |a| == |b| && |pa| == |pb| && |ra| == |rb|
    && (forall i :: 0 <= i < |a| ==> b[i] == a[i].(data := b[i].data))
    && (forall i :: 0 <= i < |pa| ==>
          pb[i] == pa[i].(dataVencimento := pb[i].dataVencimento, dataPagamento := pb[i].dataPagamento))
    && (forall i :: 0 <= i < |ra| ==>
          rb[i] == ra[i].(dataVencimento := rb[i].dataVencimento, dataRecebimento := rb[i].dataRecebimento))
  }

  /** A project's result ignores dates entirely: re-dating any movement or
      account leaves it as it was. */
  lemma ProjetoLucroIgnoresDates(projetoId: string, a: seq<Movimentacao>, b: seq<Movimentacao>,
                                 pa: seq<ContaPagar>, pb: seq<ContaPagar>,
                                 ra: seq<ContaReceber>, rb: seq<ContaReceber>)
    requires SameButDates(a, b, pa, pb, ra, rb)
    ensures CalculateProjetoLucro(projetoId, a, pa, ra) == CalculateProjetoLucro(projetoId, b, pb, rb)
  {
    ProjetoLucroTotals(projetoId, a, pa, ra);
    ProjetoLucroTotals(projetoId, b, pb, rb);
    var entrada, saida := MovimentoDoProjeto(Entrada, projetoId), MovimentoDoProjeto(Saida, projetoId);
    assert ProjetoReceitas(projetoId, a, ra) == ProjetoReceitas(projetoId, b, rb) by {
      SumWhereCongruent(a, entrada, MovimentacaoValor, b, entrada, MovimentacaoValor);
      SumWhereCongruent(ra, RecebidaDoProjeto(projetoId), ContaReceberValor,
                        rb, RecebidaDoProjeto(projetoId), ContaReceberValor);
    }
    assert ProjetoDespesas(projetoId, a, pa) == ProjetoDespesas(projetoId, b, pb) by {
      SumWhereCongruent(a, saida, MovimentacaoValor, b, saida, MovimentacaoValor);
      SumWhereCongruent(pa, PagaDoProjeto(projetoId), ContaPagarValor,
                        pb, PagaDoProjeto(projetoId), ContaPagarValor);
    }
  }
}
