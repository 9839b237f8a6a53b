/** app/notas-fiscais/page.tsx: the invoices page. It works on the local
    store: the list is read and sorted newest first by issue date, a save
    updates the edited invoice with the assembled record or appends a new
    one, and a confirmed delete removes by id. After each change the list is
    read again.

    `parseFloat` and `toString` on amounts are parameters (`parse`, `show`);
    "now" is a parameter as an ISO timestamp; `time` places a date string on
    the time line. */
module NotasFiscais {
  import opened Wrappers
  import opened Text
  import opened Seqs
  import opened Types
  import opened Storage

  /** The form: text fields and the invoice kind. */
  datatype NotaFiscalForm = NotaFiscalForm(
    numero: string, serie: string, tipo: TipoMovimentacao, dataEmissao: string, valor: string,
    clienteFornecedor: string, projetoId: string, observacoes: string)

  /** The empty form: an outgoing invoice issued today. */
  function FormVazio(nowIso: string): (f: NotaFiscalForm)
    ensures f.tipo == Saida && f.dataEmissao == DatePart(nowIso)
    ensures f.numero == "" && f.serie == "" && f.valor == "" && f.clienteFornecedor == ""
            && f.projetoId == "" && f.observacoes == ""
  {
    NotaFiscalForm("", "", Saida, DatePart(nowIso), "", "", "", "")
  }

  /** The sort key of `loadNotas`: the issue date's time, negated so that
      ascending keys are newest first. */
  function EmissaoDesc(time: string -> int): NotaFiscal -> int {
    (n: NotaFiscal) => -time(n.dataEmissao)
  }

  /** `loadNotas`: the stored invoices, newest issue date first. */
  function LoadedNotas(stored: seq<NotaFiscal>, time: string -> int): (r: seq<NotaFiscal>)
    ensures forall i, j :: 0 <= i < j < |r| ==> time(r[j].dataEmissao) <= time(r[i].dataEmissao)
    ensures multiset(r) == multiset(stored)
  {
    var r := SortBy(stored, EmissaoDesc(time));
    assert forall i, j :: 0 <= i < j < |r| ==> EmissaoDesc(time)(r[i]) <= EmissaoDesc(time)(r[j]);
    r
  }

  /** The `createdAt` of a save: when editing, that of the invoice found in
      the list if it is non-empty, otherwise now. */
  function CreatedAt(notas: seq<NotaFiscal>, editingId: Option<string>, now: string): (r: string)
    ensures var e := if Truthy(editingId) then FindByKey(notas, NotaFiscalId, editingId.value) else None;
            r == if e.Some? && e.value.createdAt != "" then e.value.createdAt else now
  {
    if Truthy(editingId) then
      match FindByKey(notas, NotaFiscalId, editingId.value)
      case Some(e) => if e.createdAt != "" then e.createdAt else now
      case None => now
    else now
  }

  /** The record `handleSubmit` assembles: an empty series, project or note
      becomes absent. */
  function AssembleNota(f: NotaFiscalForm, editingId: Option<string>, notas: seq<NotaFiscal>,
                        newId: string, now: string, parse: string -> real): (n: NotaFiscal)
    ensures n.id == if Truthy(editingId) then editingId.value else newId
    ensures n.createdAt == CreatedAt(notas, editingId, now)
    ensures n.serie == OrNone(f.serie) && n.projetoId == OrNone(f.projetoId)
            && n.observacoes == OrNone(f.observacoes)
    ensures n.numero == f.numero && n.tipo == f.tipo && n.dataEmissao == f.dataEmissao
            && n.valor == parse(f.valor) && n.clienteFornecedor == f.clienteFornecedor
  {
    NotaFiscal(if Truthy(editingId) then editingId.value else newId, f.numero, OrNone(f.serie), f.tipo,
               f.dataEmissao, parse(f.valor), f.clienteFornecedor, OrNone(f.projetoId),
               OrNone(f.observacoes), CreatedAt(notas, editingId, now))
  }

  /** The storage call a save makes. The record names every key, so an
      update replaces the stored invoice outright. */
  datatype StorageCall = Update(id: string, patch: NotaFiscalPatch) | Save(nota: NotaFiscal)

  function SubmitCall(f: NotaFiscalForm, editingId: Option<string>, notas: seq<NotaFiscal>,
                      newId: string, now: string, parse: string -> real): (r: StorageCall)
    ensures r.Update? <==> Truthy(editingId)
    ensures r.Update? ==> r.id == editingId.value
                          && forall prev :: MergeNotaFiscal(prev, r.patch)
                                            == AssembleNota(f, editingId, notas, newId, now, parse)
    ensures r.Save? ==> r.nota == AssembleNota(f, editingId, notas, newId, now, parse)
  {
    var nota := AssembleNota(f, editingId, notas, newId, now, parse);
    if Truthy(editingId) then Update(editingId.value, NotaFiscalPatchOf(nota)) else Save(nota)
  }

  /** Saving an edited invoice writes the assembled record in place of the
      first stored invoice with that id and leaves the others alone. */
  lemma SubmitReplacesEdited(stored: seq<NotaFiscal>, f: NotaFiscalForm, id: string,
                             notas: seq<NotaFiscal>, newId: string, now: string, parse: string -> real)
    requires id != ""
    ensures var call := SubmitCall(f, Some(id), notas, newId, now, parse);
            var k := IndexOfKey(stored, NotaFiscalId, id);
            var after := UpdateFirst(stored, NotaFiscalId, id, MergeNotaFiscal, call.patch);
            && call.Update?
            && (0 <= k ==> after == stored[k := AssembleNota(f, Some(id), notas, newId, now, parse)])
            && (k == -1 ==> after == stored)
  {
  }

  /** `handleEdit`: the issue date loses its time part, an absent series,
      project or note shows as empty text. */
  function EditForm(n: NotaFiscal, show: real -> string): (f: NotaFiscalForm)
    ensures f.dataEmissao == DatePart(n.dataEmissao)
    ensures f.serie == OrEmpty(n.serie) && f.projetoId == OrEmpty(n.projetoId)
            && f.observacoes == OrEmpty(n.observacoes)
    ensures f.numero == n.numero && f.tipo == n.tipo && f.clienteFornecedor == n.clienteFornecedor
    ensures f.valor == show(n.valor)
  {
    NotaFiscalForm(n.numero, OrEmpty(n.serie), n.tipo, DatePart(n.dataEmissao), show(n.valor),
                   n.clienteFornecedor, OrEmpty(n.projetoId), OrEmpty(n.observacoes))
  }

  /** Editing an invoice and saving without changes writes it back with the
      issue date cut to its date part and empty series, project and note
      dropped; `createdAt` is kept when it has one. */
  lemma EditThenSubmit(n: NotaFiscal, notas: seq<NotaFiscal>, newId: string, now: string,
                       parse: string -> real, show: real -> string)
    requires n.id != "" && n.createdAt != ""
    requires FindByKey(notas, NotaFiscalId, n.id) == Some(n)
    requires parse(show(n.valor)) == n.valor
    ensures AssembleNota(EditForm(n, show), Some(n.id), notas, newId, now, parse)
            == n.(dataEmissao := DatePart(n.dataEmissao), serie := Normalized(n.serie),
                  projetoId := Normalized(n.projetoId), observacoes := Normalized(n.observacoes))
  {
    OrNoneOrEmpty(n.serie);
    OrNoneOrEmpty(n.projetoId);
    OrNoneOrEmpty(n.observacoes);
  }

  /** The number column: the number, then " - Série " and the series when
      there is a non-empty one. */
  function NumeroDisplay(n: NotaFiscal): (r: string)
    ensures StartsWith(r, n.numero)
    ensures r == n.numero <==> !Truthy(n.serie)
    ensures Truthy(n.serie) ==> r[|n.numero|..] == " - S\U{00E9}rie " + n.serie.value
  {
    n.numero + (if Truthy(n.serie) then " - S\U{00E9}rie " + n.serie.value else "")
  }

  /** The page: the store it works on, the loaded list, the form and the id
      being edited. */
  class NotasFiscaisPage {
    const storage: StorageService
    var notas: seq<NotaFiscal>
    var form: NotaFiscalForm
    var editingId: Option<string>
    var showForm: bool

    constructor (storage: StorageService, nowIso: string)
      ensures this.storage == storage
      ensures notas == [] && form == FormVazio(nowIso) && editingId.None? && !showForm
    {
      this.storage := storage;
      notas, form, editingId, showForm := [], FormVazio(nowIso), None, false;
    }

    /** `loadNotas`. */
    method LoadNotas(time: string -> int)
      modifies this`notas
      ensures notas == LoadedNotas(storage.GetNotasFiscais(), time)
    {
      notas := LoadedNotas(storage.GetNotasFiscais(), time);
    }

    method HandleEdit(n: NotaFiscal, show: real -> string)
      modifies this`editingId, this`form, this`showForm
      ensures editingId == Some(n.id) && form == EditForm(n, show) && showForm
    {
      editingId := Some(n.id);
      form := EditForm(n, show);
      showForm := true;
    }

    /** `handleSubmit`: the storage call, a form reset (to today) and a
        reload. */
    method HandleSubmit(newId: string, now: string, parse: string -> real, time: string -> int)
      returns (call: StorageCall)
      modifies this`notas, this`form, this`editingId, this`showForm, storage`notasFiscais
      ensures call == SubmitCall(old(form), old(editingId), old(notas), newId, now, parse)
      ensures storage.notasFiscais ==
                if !storage.hasWindow then old(storage.notasFiscais)
                else if call.Update? then UpdateFirst(old(storage.notasFiscais), NotaFiscalId, call.id,
                                                      MergeNotaFiscal, call.patch)
                else old(storage.notasFiscais) + [call.nota]
      ensures form == FormVazio(now) && editingId.None? && !showForm
      ensures notas == LoadedNotas(storage.GetNotasFiscais(), time)
    {
      call := SubmitCall(form, editingId, notas, newId, now, parse);
      if call.Update? {
        storage.UpdateNotaFiscal(call.id, call.patch);
      } else {
        storage.SaveNotaFiscal(call.nota);
      }
      form, editingId, showForm := FormVazio(now), None, false;
      LoadNotas(time);
    }

    /** `handleDelete`: only when the user confirms. */
    method HandleDelete(id: string, confirmed: bool, time: string -> int)
      modifies this`notas, storage`notasFiscais
      ensures !confirmed ==> notas == old(notas) && storage.notasFiscais == old(storage.notasFiscais)
      ensures confirmed ==>
                && storage.notasFiscais == (if storage.hasWindow
                                            then RemoveId(old(storage.notasFiscais), NotaFiscalId, id)
                                            else old(storage.notasFiscais))
                && notas == LoadedNotas(storage.GetNotasFiscais(), time)
    {
      if confirmed {
        storage.DeleteNotaFiscal(id);
        LoadNotas(time);
      }
    }
  }
}
