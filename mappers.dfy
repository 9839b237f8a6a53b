/** lib/db/mappers.ts: the snake_case database rows, and the mappers between
    them and the records of types/index.ts.

    A nullable column holds `None` for null; the optional `tenant_id` column
    holds `None` both when it is missing and when it is null. A `Partial` row
    (what the `*ToDb` mappers build) carries no `created_at` and no
    `tenant_id` column: the database fills the first and the routes add the
    second. In it, `None` in a column the row type declares required is an
    undefined value, which the write omits; `None` in a nullable column is
    null, which the write stores. Statuses are one enumeration on both sides,
    so a status outside the row's declared union (a received payable, which
    the source lets through with `as any`) is copied like any other. */
module Mappers {
  import opened Wrappers
  import opened Types

  /** `key ?? null` on an optional field of a `Partial`: a missing key and an
      undefined value both become null; a value, empty or not, is kept. */
  function OrNull<T>(key: Option<Option<T>>): (r: Option<T>)
    ensures r.Some? <==> key.Some? && key.value.Some?
    ensures r.Some? ==> r.value == key.value.value
  {
    if key.Some? then key.value else None
  }

  // ---------------------------------------------------------------- projetos

  datatype DbProjeto = DbProjeto(
    id: string, tenantId: Option<string>, nome: string, descricao: Option<string>,
    dataInicio: string, dataFim: Option<string>, status: StatusProjeto, createdAt: string)

  datatype DbProjetoWrite = DbProjetoWrite(
    id: Option<string>, nome: Option<string>, descricao: Option<string>,
    dataInicio: Option<string>, dataFim: Option<string>, status: Option<StatusProjeto>)

  /** The row as written: every column but `tenant_id` and `created_at`. A
      stored row is recovered from it with those two columns. */
  function DbProjetoWriteOf(r: DbProjeto): (w: DbProjetoWrite)
    ensures InsertedProjeto(w, r.createdAt, r.tenantId) == Some(r)
  {
    DbProjetoWrite(Some(r.id), Some(r.nome), r.descricao, Some(r.dataInicio), r.dataFim, Some(r.status))
  }

  /** The row an insert of `w` stores, with the database's `created_at` and the
      route's `tenant_id`; none when a required column is undefined. */
  function InsertedProjeto(w: DbProjetoWrite, createdAt: string, tenantId: Option<string>): (r: Option<DbProjeto>)
    ensures r.Some? <==> w.id.Some? && w.nome.Some? && w.dataInicio.Some? && w.status.Some?
    ensures r.Some? ==> r.value.createdAt == createdAt && r.value.tenantId == tenantId
                        && r.value.descricao == w.descricao && r.value.dataFim == w.dataFim
    ensures r.Some? ==> r.value.id == w.id.value && r.value.nome == w.nome.value
                        && r.value.dataInicio == w.dataInicio.value && r.value.status == w.status.value
  {
    if w.id.Some? && w.nome.Some? && w.dataInicio.Some? && w.status.Some? then
      Some(DbProjeto(w.id.value, tenantId, w.nome.value, w.descricao, w.dataInicio.value,
                     w.dataFim, w.status.value, createdAt))
    else None
  }

  /** `mapProjetoFromDb`: null columns become absent fields. Mapping the result
      back writes the row minus `tenant_id` and `created_at`. */
  function MapProjetoFromDb(r: DbProjeto): (x: Projeto)
    ensures x.createdAt == r.createdAt
    ensures MapProjetoToDb(ProjetoPatchOf(x)) == DbProjetoWriteOf(r)
  {
    Projeto(r.id, r.nome, r.descricao, r.dataInicio, r.dataFim, r.status, r.createdAt)
  }

  /** `mapProjetoToDb`: absent optional fields are written as null, present
      ones as they are; required fields are copied, undefined included. */
  function MapProjetoToDb(p: ProjetoPatch): (w: DbProjetoWrite)
    ensures w.id == p.id && w.nome == p.nome && w.dataInicio == p.dataInicio && w.status == p.status
    ensures w.descricao == OrNull(p.descricao) && w.dataFim == OrNull(p.dataFim)
  {
    DbProjetoWrite(p.id, p.nome, OrNull(p.descricao), p.dataInicio, OrNull(p.dataFim), p.status)
  }

  /** The record's `createdAt` is never written. */
  lemma ProjetoToDbIgnoresCreatedAt(p: ProjetoPatch, createdAt: Option<string>)
    ensures MapProjetoToDb(p.(createdAt := createdAt)) == MapProjetoToDb(p)
  {
  }

  /** Inserting a whole record and reading it back gives the record, with the
      database's `createdAt`. */
  lemma ProjetoRoundTrip(x: Projeto, createdAt: string, tenantId: Option<string>)
    ensures InsertedProjeto(MapProjetoToDb(ProjetoPatchOf(x)), createdAt, tenantId).Some?
    ensures MapProjetoFromDb(InsertedProjeto(MapProjetoToDb(ProjetoPatchOf(x)), createdAt, tenantId).value)
            == x.(createdAt := createdAt)
  {
  }

  // ----------------------------------------------------------- movimentacoes

  datatype DbMovimentacao = DbMovimentacao(
    id: string, tenantId: Option<string>, tipo: TipoMovimentacao, descricao: string, valor: real,
    data: string, categoria: string, projetoId: Option<string>, observacoes: Option<string>,
    createdAt: string)

  datatype DbMovimentacaoWrite = DbMovimentacaoWrite(
    id: Option<string>, tipo: Option<TipoMovimentacao>, descricao: Option<string>, valor: Option<real>,
    data: Option<string>, categoria: Option<string>, projetoId: Option<string>, observacoes: Option<string>)

  function DbMovimentacaoWriteOf(r: DbMovimentacao): (w: DbMovimentacaoWrite)
    ensures InsertedMovimentacao(w, r.createdAt, r.tenantId) == Some(r)
  {
    DbMovimentacaoWrite(Some(r.id), Some(r.tipo), Some(r.descricao), Some(r.valor), Some(r.data),
                        Some(r.categoria), r.projetoId, r.observacoes)
  }

  function InsertedMovimentacao(w: DbMovimentacaoWrite, createdAt: string, tenantId: Option<string>)
    : (r: Option<DbMovimentacao>)
    ensures r.Some? <==> w.id.Some? && w.tipo.Some? && w.descricao.Some? && w.valor.Some?
                         && w.data.Some? && w.categoria.Some?
    ensures r.Some? ==> r.value.createdAt == createdAt && r.value.tenantId == tenantId
                        && r.value.projetoId == w.projetoId && r.value.observacoes == w.observacoes
    ensures r.Some? ==> r.value.id == w.id.value && r.value.tipo == w.tipo.value
                        && r.value.descricao == w.descricao.value && r.value.valor == w.valor.value
                        && r.value.data == w.data.value && r.value.categoria == w.categoria.value
  {
    if w.id.Some? && w.tipo.Some? && w.descricao.Some? && w.valor.Some? && w.data.Some? && w.categoria.Some? then
      Some(DbMovimentacao(w.id.value, tenantId, w.tipo.value, w.descricao.value, w.valor.value,
                          w.data.value, w.categoria.value, w.projetoId, w.observacoes, createdAt))
    else None
  }

  /** `mapMovimentacaoFromDb`; `Number(valor)` is the identity on the numbers
      the column holds. */
  function MapMovimentacaoFromDb(r: DbMovimentacao): (x: Movimentacao)
    ensures x.createdAt == r.createdAt && x.valor == r.valor
    ensures MapMovimentacaoToDb(MovimentacaoPatchOf(x)) == DbMovimentacaoWriteOf(r)
  {
    Movimentacao(r.id, r.tipo, r.descricao, r.valor, r.data, r.categoria, r.projetoId,
                 r.observacoes, r.createdAt)
  }

  function MapMovimentacaoToDb(m: MovimentacaoPatch): (w: DbMovimentacaoWrite)
    ensures w.id == m.id && w.tipo == m.tipo && w.descricao == m.descricao && w.valor == m.valor
            && w.data == m.data && w.categoria == m.categoria
    ensures w.projetoId == OrNull(m.projetoId) && w.observacoes == OrNull(m.observacoes)
  {
    DbMovimentacaoWrite(m.id, m.tipo, m.descricao, m.valor, m.data, m.categoria,
                        OrNull(m.projetoId), OrNull(m.observacoes))
  }

  lemma MovimentacaoToDbIgnoresCreatedAt(m: MovimentacaoPatch, createdAt: Option<string>)
    ensures MapMovimentacaoToDb(m.(createdAt := createdAt)) == MapMovimentacaoToDb(m)
  {
  }

  lemma MovimentacaoRoundTrip(x: Movimentacao, createdAt: string, tenantId: Option<string>)
    ensures InsertedMovimentacao(MapMovimentacaoToDb(MovimentacaoPatchOf(x)), createdAt, tenantId).Some?
    ensures MapMovimentacaoFromDb(InsertedMovimentacao(MapMovimentacaoToDb(MovimentacaoPatchOf(x)),
                                                       createdAt, tenantId).value)
            == x.(createdAt := createdAt)
  {
  }

  // ------------------------------------------------------------ contas_pagar

  datatype DbContaPagar = DbContaPagar(
    id: string, tenantId: Option<string>, descricao: string, valor: real, dataVencimento: string,
    dataPagamento: Option<string>, status: StatusConta, fornecedor: string, categoria: string,
    projetoId: Option<string>, observacoes: Option<string>, createdAt: string)

  datatype DbContaPagarWrite = DbContaPagarWrite(
    id: Option<string>, descricao: Option<string>, valor: Option<real>, dataVencimento: Option<string>,
    dataPagamento: Option<string>, status: Option<StatusConta>, fornecedor: Option<string>,
    categoria: Option<string>, projetoId: Option<string>, observacoes: Option<string>)

  function DbContaPagarWriteOf(r: DbContaPagar): (w: DbContaPagarWrite)
    ensures InsertedContaPagar(w, r.createdAt, r.tenantId) == Some(r)
  {
    DbContaPagarWrite(Some(r.id), Some(r.descricao), Some(r.valor), Some(r.dataVencimento),
                      r.dataPagamento, Some(r.status), Some(r.fornecedor), Some(r.categoria),
                      r.projetoId, r.observacoes)
  }

  function InsertedContaPagar(w: DbContaPagarWrite, createdAt: string, tenantId: Option<string>)
    : (r: Option<DbContaPagar>)
    ensures r.Some? <==> w.id.Some? && w.descricao.Some? && w.valor.Some? && w.dataVencimento.Some?
                         && w.status.Some? && w.fornecedor.Some? && w.categoria.Some?
    ensures r.Some? ==> r.value.createdAt == createdAt && r.value.tenantId == tenantId
                        && r.value.dataPagamento == w.dataPagamento
                        && r.value.projetoId == w.projetoId && r.value.observacoes == w.observacoes
    ensures r.Some? ==> r.value.id == w.id.value && r.value.descricao == w.descricao.value
                        && r.value.valor == w.valor.value && r.value.dataVencimento == w.dataVencimento.value
                        && r.value.status == w.status.value && r.value.fornecedor == w.fornecedor.value
                        && r.value.categoria == w.categoria.value
  {
    if w.id.Some? && w.descricao.Some? && w.valor.Some? && w.dataVencimento.Some?
       && w.status.Some? && w.fornecedor.Some? && w.categoria.Some? then
      Some(DbContaPagar(w.id.value, tenantId, w.descricao.value, w.valor.value, w.dataVencimento.value,
                        w.dataPagamento, w.status.value, w.fornecedor.value, w.categoria.value,
                        w.projetoId, w.observacoes, createdAt))
    else None
  }

  function MapContaPagarFromDb(r: DbContaPagar): (x: ContaPagar)
    ensures x.createdAt == r.createdAt && x.valor == r.valor && x.status == r.status
    ensures MapContaPagarToDb(ContaPagarPatchOf(x)) == DbContaPagarWriteOf(r)
  {
    ContaPagar(r.id, r.descricao, r.valor, r.dataVencimento, r.dataPagamento, r.status,
               r.fornecedor, r.categoria, r.projetoId, r.observacoes, r.createdAt)
  }

  function MapContaPagarToDb(c: ContaPagarPatch): (w: DbContaPagarWrite)
    ensures w.id == c.id && w.descricao == c.descricao && w.valor == c.valor
            && w.dataVencimento == c.dataVencimento && w.status == c.status
            && w.fornecedor == c.fornecedor && w.categoria == c.categoria
    ensures w.dataPagamento == OrNull(c.dataPagamento) && w.projetoId == OrNull(c.projetoId)
            && w.observacoes == OrNull(c.observacoes)
  {
    DbContaPagarWrite(c.id, c.descricao, c.valor, c.dataVencimento, OrNull(c.dataPagamento),
                      c.status, c.fornecedor, c.categoria, OrNull(c.projetoId), OrNull(c.observacoes))
  }

  lemma ContaPagarToDbIgnoresCreatedAt(c: ContaPagarPatch, createdAt: Option<string>)
    ensures MapContaPagarToDb(c.(createdAt := createdAt)) == MapContaPagarToDb(c)
  {
  }

  lemma ContaPagarRoundTrip(x: ContaPagar, createdAt: string, tenantId: Option<string>)
    ensures InsertedContaPagar(MapContaPagarToDb(ContaPagarPatchOf(x)), createdAt, tenantId).Some?
    ensures MapContaPagarFromDb(InsertedContaPagar(MapContaPagarToDb(ContaPagarPatchOf(x)),
                                                   createdAt, tenantId).value)
            == x.(createdAt := createdAt)
  {
  }

  // ---------------------------------------------------------- contas_receber

  datatype DbContaReceber = DbContaReceber(
    id: string, tenantId: Option<string>, descricao: string, valor: real, dataVencimento: string,
    dataRecebimento: Option<string>, status: StatusConta, cliente: string, categoria: string,
    projetoId: Option<string>, observacoes: Option<string>, createdAt: string)

  datatype DbContaReceberWrite = DbContaReceberWrite(
    id: Option<string>, descricao: Option<string>, valor: Option<real>, dataVencimento: Option<string>,
    dataRecebimento: Option<string>, status: Option<StatusConta>, cliente: Option<string>,
    categoria: Option<string>, projetoId: Option<string>, observacoes: Option<string>)

  function DbContaReceberWriteOf(r: DbContaReceber): (w: DbContaReceberWrite)
    ensures InsertedContaReceber(w, r.createdAt, r.tenantId) == Some(r)
  {
    DbContaReceberWrite(Some(r.id), Some(r.descricao), Some(r.valor), Some(r.dataVencimento),
                        r.dataRecebimento, Some(r.status), Some(r.cliente), Some(r.categoria),
                        r.projetoId, r.observacoes)
  }

  function InsertedContaReceber(w: DbContaReceberWrite, createdAt: string, tenantId: Option<string>)
    : (r: Option<DbContaReceber>)
    ensures r.Some? <==> w.id.Some? && w.descricao.Some? && w.valor.Some? && w.dataVencimento.Some?
                         && w.status.Some? && w.cliente.Some? && w.categoria.Some?
    ensures r.Some? ==> r.value.createdAt == createdAt && r.value.tenantId == tenantId
                        && r.value.dataRecebimento == w.dataRecebimento
                        && r.value.projetoId == w.projetoId && r.value.observacoes == w.observacoes
    ensures r.Some? ==> r.value.id == w.id.value && r.value.descricao == w.descricao.value
                        && r.value.valor == w.valor.value && r.value.dataVencimento == w.dataVencimento.value
                        && r.value.status == w.status.value && r.value.cliente == w.cliente.value
                        && r.value.categoria == w.categoria.value
  {
    if w.id.Some? && w.descricao.Some? && w.valor.Some? && w.dataVencimento.Some?
       && w.status.Some? && w.cliente.Some? && w.categoria.Some? then
      Some(DbContaReceber(w.id.value, tenantId, w.descricao.value, w.valor.value, w.dataVencimento.value,
                          w.dataRecebimento, w.status.value, w.cliente.value, w.categoria.value,
                          w.projetoId, w.observacoes, createdAt))
    else None
  }

  function MapContaReceberFromDb(r: DbContaReceber): (x: ContaReceber)
    ensures x.createdAt == r.createdAt && x.valor == r.valor && x.status == r.status
    ensures MapContaReceberToDb(ContaReceberPatchOf(x)) == DbContaReceberWriteOf(r)
  {
    ContaReceber(r.id, r.descricao, r.valor, r.dataVencimento, r.dataRecebimento, r.status,
                 r.cliente, r.categoria, r.projetoId, r.observacoes, r.createdAt)
  }

  function MapContaReceberToDb(c: ContaReceberPatch): (w: DbContaReceberWrite)
    ensures w.id == c.id && w.descricao == c.descricao && w.valor == c.valor
            && w.dataVencimento == c.dataVencimento && w.status == c.status
            && w.cliente == c.cliente && w.categoria == c.categoria
    ensures w.dataRecebimento == OrNull(c.dataRecebimento) && w.projetoId == OrNull(c.projetoId)
            && w.observacoes == OrNull(c.observacoes)
  {
    DbContaReceberWrite(c.id, c.descricao, c.valor, c.dataVencimento, OrNull(c.dataRecebimento),
                        c.status, c.cliente, c.categoria, OrNull(c.projetoId), OrNull(c.observacoes))
  }

  lemma ContaReceberToDbIgnoresCreatedAt(c: ContaReceberPatch, createdAt: Option<string>)
    ensures MapContaReceberToDb(c.(createdAt := createdAt)) == MapContaReceberToDb(c)
  {
  }

  lemma ContaReceberRoundTrip(x: ContaReceber, createdAt: string, tenantId: Option<string>)
    ensures InsertedContaReceber(MapContaReceberToDb(ContaReceberPatchOf(x)), createdAt, tenantId).Some?
    ensures MapContaReceberFromDb(InsertedContaReceber(MapContaReceberToDb(ContaReceberPatchOf(x)),
                                                       createdAt, tenantId).value)
            == x.(createdAt := createdAt)
  {
  }

  // ----------------------------------------------------------- notas_fiscais

  datatype DbNotaFiscal = DbNotaFiscal(
    id: string, tenantId: Option<string>, numero: string, serie: Option<string>,
    tipo: TipoMovimentacao, dataEmissao: string, valor: real, clienteFornecedor: string,
    projetoId: Option<string>, observacoes: Option<string>, createdAt: string)

  datatype DbNotaFiscalWrite = DbNotaFiscalWrite(
    id: Option<string>, numero: Option<string>, serie: Option<string>, tipo: Option<TipoMovimentacao>,
    dataEmissao: Option<string>, valor: Option<real>, clienteFornecedor: Option<string>,
    projetoId: Option<string>, observacoes: Option<string>)

  function DbNotaFiscalWriteOf(r: DbNotaFiscal): (w: DbNotaFiscalWrite)
    ensures InsertedNotaFiscal(w, r.createdAt, r.tenantId) == Some(r)
  {
    DbNotaFiscalWrite(Some(r.id), Some(r.numero), r.serie, Some(r.tipo), Some(r.dataEmissao),
                      Some(r.valor), Some(r.clienteFornecedor), r.projetoId, r.observacoes)
  }

  function InsertedNotaFiscal(w: DbNotaFiscalWrite, createdAt: string, tenantId: Option<string>)
    : (r: Option<DbNotaFiscal>)
    ensures r.Some? <==> w.id.Some? && w.numero.Some? && w.tipo.Some? && w.dataEmissao.Some?
                         && w.valor.Some? && w.clienteFornecedor.Some?
    ensures r.Some? ==> r.value.createdAt == createdAt && r.value.tenantId == tenantId
                        && r.value.serie == w.serie
                        && r.value.projetoId == w.projetoId && r.value.observacoes == w.observacoes
    ensures r.Some? ==> r.value.id == w.id.value && r.value.numero == w.numero.value
                        && r.value.tipo == w.tipo.value && r.value.dataEmissao == w.dataEmissao.value
                        && r.value.valor == w.valor.value
                        && r.value.clienteFornecedor == w.clienteFornecedor.value
  {
    if w.id.Some? && w.numero.Some? && w.tipo.Some? && w.dataEmissao.Some?
       && w.valor.Some? && w.clienteFornecedor.Some? then
      Some(DbNotaFiscal(w.id.value, tenantId, w.numero.value, w.serie, w.tipo.value,
                        w.dataEmissao.value, w.valor.value, w.clienteFornecedor.value,
                        w.projetoId, w.observacoes, createdAt))
    else None
  }

  function MapNotaFiscalFromDb(r: DbNotaFiscal): (x: NotaFiscal)
    ensures x.createdAt == r.createdAt && x.valor == r.valor && x.tipo == r.tipo
    ensures MapNotaFiscalToDb(NotaFiscalPatchOf(x)) == DbNotaFiscalWriteOf(r)
  {
    NotaFiscal(r.id, r.numero, r.serie, r.tipo, r.dataEmissao, r.valor, r.clienteFornecedor,
               r.projetoId, r.observacoes, r.createdAt)
  }

  function MapNotaFiscalToDb(n: NotaFiscalPatch): (w: DbNotaFiscalWrite)
    ensures w.id == n.id && w.numero == n.numero && w.tipo == n.tipo && w.dataEmissao == n.dataEmissao
            && w.valor == n.valor && w.clienteFornecedor == n.clienteFornecedor
    ensures w.serie == OrNull(n.serie) && w.projetoId == OrNull(n.projetoId)
            && w.observacoes == OrNull(n.observacoes)
  {
    DbNotaFiscalWrite(n.id, n.numero, OrNull(n.serie), n.tipo, n.dataEmissao, n.valor,
                      n.clienteFornecedor, OrNull(n.projetoId), OrNull(n.observacoes))
  }

  lemma NotaFiscalToDbIgnoresCreatedAt(n: NotaFiscalPatch, createdAt: Option<string>)
    ensures MapNotaFiscalToDb(n.(createdAt := createdAt)) == MapNotaFiscalToDb(n)
  {
  }

  lemma NotaFiscalRoundTrip(x: NotaFiscal, createdAt: string, tenantId: Option<string>)
    ensures InsertedNotaFiscal(MapNotaFiscalToDb(NotaFiscalPatchOf(x)), createdAt, tenantId).Some?
    ensures MapNotaFiscalFromDb(InsertedNotaFiscal(MapNotaFiscalToDb(NotaFiscalPatchOf(x)),
                                                   createdAt, tenantId).value)
            == x.(createdAt := createdAt)
  {
  }
}
