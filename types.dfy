/** The records of types/index.ts, and `Partial<T>` for each of them together
    with the object spread `{ ...old, ...patch }` that applies it.

    A `Partial<T>` is a JavaScript object whose keys may be missing. For a
    required field the patch holds `None` when the key is missing and
    `Some(v)` when it is there. For an optional field (`projetoId?: string`)
    there are three cases, and the spread tells them apart: the key is
    missing (`None`, the old value survives), the key is there but holds
    `undefined` (`Some(None)`, the field becomes absent), or it holds a value
    (`Some(Some(v))`). Object literals such as
    `{ projetoId: form.projetoId || undefined }` produce the middle case. */
module Types {
  import opened Wrappers

  datatype TipoMovimentacao = Entrada | Saida
  datatype StatusConta = Pendente | Paga | Recebida | Vencida
  datatype StatusProjeto = Ativo | Concluido | Cancelado

  /** Amounts are reals (the source's `number`); dates and timestamps are the
      ISO strings the source stores. */
  datatype Movimentacao = Movimentacao(
    id: string, tipo: TipoMovimentacao, descricao: string, valor: real, data: string,
    categoria: string, projetoId: Option<string>, observacoes: Option<string>, createdAt: string)

  datatype ContaPagar = ContaPagar(
    id: string, descricao: string, valor: real, dataVencimento: string,
    dataPagamento: Option<string>, status: StatusConta, fornecedor: string, categoria: string,
    projetoId: Option<string>, observacoes: Option<string>, createdAt: string)

  datatype ContaReceber = ContaReceber(
    id: string, descricao: string, valor: real, dataVencimento: string,
    dataRecebimento: Option<string>, status: StatusConta, cliente: string, categoria: string,
    projetoId: Option<string>, observacoes: Option<string>, createdAt: string)

  datatype Projeto = Projeto(
    id: string, nome: string, descricao: Option<string>, dataInicio: string,
    dataFim: Option<string>, status: StatusProjeto, createdAt: string)

  datatype NotaFiscal = NotaFiscal(
    id: string, numero: string, serie: Option<string>, tipo: TipoMovimentacao,
    dataEmissao: string, valor: real, clienteFornecedor: string, projetoId: Option<string>,
    observacoes: Option<string>, createdAt: string)

  // Field accessors, passed to the generic list functions as keys and values.
  function MovimentacaoId(m: Movimentacao): string { m.id }
  function ContaPagarId(c: ContaPagar): string { c.id }
  function ContaReceberId(c: ContaReceber): string { c.id }
  function ProjetoId(p: Projeto): string { p.id }
  function NotaFiscalId(n: NotaFiscal): string { n.id }
  function MovimentacaoValor(m: Movimentacao): real { m.valor }
  function ContaPagarValor(c: ContaPagar): real { c.valor }
  function ContaReceberValor(c: ContaReceber): real { c.valor }

  /** One key of a spread: a key that is there wins, a missing key keeps the
      old value. */
  function Spread<V>(previous: V, key: Option<V>): (r: V)
    ensures key.Some? ==> r == key.value
    ensures key.None? ==> r == previous
  {
    match key
    case Some(v) => v
    case None => previous
  }

  datatype MovimentacaoPatch = MovimentacaoPatch(
    id: Option<string>, tipo: Option<TipoMovimentacao>, descricao: Option<string>,
    valor: Option<real>, data: Option<string>, categoria: Option<string>,
    projetoId: Option<Option<string>>, observacoes: Option<Option<string>>, createdAt: Option<string>)

  datatype ContaPagarPatch = ContaPagarPatch(
    id: Option<string>, descricao: Option<string>, valor: Option<real>,
    dataVencimento: Option<string>, dataPagamento: Option<Option<string>>,
    status: Option<StatusConta>, fornecedor: Option<string>, categoria: Option<string>,
    projetoId: Option<Option<string>>, observacoes: Option<Option<string>>, createdAt: Option<string>)

  datatype ContaReceberPatch = ContaReceberPatch(
    id: Option<string>, descricao: Option<string>, valor: Option<real>,
    dataVencimento: Option<string>, dataRecebimento: Option<Option<string>>,
    status: Option<StatusConta>, cliente: Option<string>, categoria: Option<string>,
    projetoId: Option<Option<string>>, observacoes: Option<Option<string>>, createdAt: Option<string>)

  datatype ProjetoPatch = ProjetoPatch(
    id: Option<string>, nome: Option<string>, descricao: Option<Option<string>>,
    dataInicio: Option<string>, dataFim: Option<Option<string>>, status: Option<StatusProjeto>,
    createdAt: Option<string>)

  datatype NotaFiscalPatch = NotaFiscalPatch(
    id: Option<string>, numero: Option<string>, serie: Option<Option<string>>,
    tipo: Option<TipoMovimentacao>, dataEmissao: Option<string>, valor: Option<real>,
    clienteFornecedor: Option<string>, projetoId: Option<Option<string>>,
    observacoes: Option<Option<string>>, createdAt: Option<string>)

  /** `{ ...m, ...p }` */
  function MergeMovimentacao(m: Movimentacao, p: MovimentacaoPatch): Movimentacao {
    Movimentacao(Spread(m.id, p.id), Spread(m.tipo, p.tipo), Spread(m.descricao, p.descricao),
      Spread(m.valor, p.valor), Spread(m.data, p.data), Spread(m.categoria, p.categoria),
      Spread(m.projetoId, p.projetoId), Spread(m.observacoes, p.observacoes),
      Spread(m.createdAt, p.createdAt))
  }

  /** `{ ...c, ...p }` */
  function MergeContaPagar(c: ContaPagar, p: ContaPagarPatch): ContaPagar {
    ContaPagar(Spread(c.id, p.id), Spread(c.descricao, p.descricao), Spread(c.valor, p.valor),
      Spread(c.dataVencimento, p.dataVencimento), Spread(c.dataPagamento, p.dataPagamento),
      Spread(c.status, p.status), Spread(c.fornecedor, p.fornecedor),
      Spread(c.categoria, p.categoria), Spread(c.projetoId, p.projetoId),
      Spread(c.observacoes, p.observacoes), Spread(c.createdAt, p.createdAt))
  }

  /** `{ ...c, ...p }` */
  function MergeContaReceber(c: ContaReceber, p: ContaReceberPatch): ContaReceber {
    ContaReceber(Spread(c.id, p.id), Spread(c.descricao, p.descricao), Spread(c.valor, p.valor),
      Spread(c.dataVencimento, p.dataVencimento), Spread(c.dataRecebimento, p.dataRecebimento),
      Spread(c.status, p.status), Spread(c.cliente, p.cliente),
      Spread(c.categoria, p.categoria), Spread(c.projetoId, p.projetoId),
      Spread(c.observacoes, p.observacoes), Spread(c.createdAt, p.createdAt))
  }

  /** `{ ...x, ...p }` */
  function MergeProjeto(x: Projeto, p: ProjetoPatch): Projeto {
    Projeto(Spread(x.id, p.id), Spread(x.nome, p.nome), Spread(x.descricao, p.descricao),
      Spread(x.dataInicio, p.dataInicio), Spread(x.dataFim, p.dataFim),
      Spread(x.status, p.status), Spread(x.createdAt, p.createdAt))
  }

  /** `{ ...n, ...p }` */
  function MergeNotaFiscal(n: NotaFiscal, p: NotaFiscalPatch): NotaFiscal {
    NotaFiscal(Spread(n.id, p.id), Spread(n.numero, p.numero), Spread(n.serie, p.serie),
      Spread(n.tipo, p.tipo), Spread(n.dataEmissao, p.dataEmissao), Spread(n.valor, p.valor),
      Spread(n.clienteFornecedor, p.clienteFornecedor), Spread(n.projetoId, p.projetoId),
      Spread(n.observacoes, p.observacoes), Spread(n.createdAt, p.createdAt))
  }

  /** A whole record used as a `Partial`: an object literal that names every
      key. Spreading it over any record yields the record itself. */
  function MovimentacaoPatchOf(m: Movimentacao): (p: MovimentacaoPatch)
    ensures forall prev :: MergeMovimentacao(prev, p) == m
  {
    MovimentacaoPatch(Some(m.id), Some(m.tipo), Some(m.descricao), Some(m.valor), Some(m.data),
      Some(m.categoria), Some(m.projetoId), Some(m.observacoes), Some(m.createdAt))
  }

  function ContaPagarPatchOf(c: ContaPagar): (p: ContaPagarPatch)
    ensures forall prev :: MergeContaPagar(prev, p) == c
  {
    ContaPagarPatch(Some(c.id), Some(c.descricao), Some(c.valor), Some(c.dataVencimento),
      Some(c.dataPagamento), Some(c.status), Some(c.fornecedor), Some(c.categoria),
      Some(c.projetoId), Some(c.observacoes), Some(c.createdAt))
  }

  function ContaReceberPatchOf(c: ContaReceber): (p: ContaReceberPatch)
    ensures forall prev :: MergeContaReceber(prev, p) == c
  {
    ContaReceberPatch(Some(c.id), Some(c.descricao), Some(c.valor), Some(c.dataVencimento),
      Some(c.dataRecebimento), Some(c.status), Some(c.cliente), Some(c.categoria),
      Some(c.projetoId), Some(c.observacoes), Some(c.createdAt))
  }

  function ProjetoPatchOf(x: Projeto): (p: ProjetoPatch)
    ensures forall prev :: MergeProjeto(prev, p) == x
  {
    ProjetoPatch(Some(x.id), Some(x.nome), Some(x.descricao), Some(x.dataInicio),
      Some(x.dataFim), Some(x.status), Some(x.createdAt))
  }

  function NotaFiscalPatchOf(n: NotaFiscal): (p: NotaFiscalPatch)
    ensures forall prev :: MergeNotaFiscal(prev, p) == n
  {
    NotaFiscalPatch(Some(n.id), Some(n.numero), Some(n.serie), Some(n.tipo), Some(n.dataEmissao),
      Some(n.valor), Some(n.clienteFornecedor), Some(n.projetoId), Some(n.observacoes),
      Some(n.createdAt))
  }
}
