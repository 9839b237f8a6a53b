/** lib/storage.ts: the browser-local store of the five collections. Each
    collection lives under its own key; every operation reads the list,
    changes it and writes it back. Without a browser window every read is
    the empty list and every write does nothing. */
module Storage {
  import opened Wrappers
  import opened Types
  import opened Seqs

  datatype Collection = Movimentacoes | ContasPagar | ContasReceber | Projetos | NotasFiscais

  /** `STORAGE_KEYS`: the key each collection is stored under. */
  function StorageKey(c: Collection): string {
    match c
    case Movimentacoes => "gestao_marcenaria_movimentacoes"
    case ContasPagar => "gestao_marcenaria_contas_pagar"
    case ContasReceber => "gestao_marcenaria_contas_receber"
    case Projetos => "gestao_marcenaria_projetos"
    case NotasFiscais => "gestao_marcenaria_notas_fiscais"
  }

  /** No two collections share a key, so writing one never touches another. */
  lemma StorageKeysDistinct(c: Collection, d: Collection)
    requires c != d
    ensures StorageKey(c) != StorageKey(d)
  {
  }

  /** The list `update` writes back: the first element whose id is `id` is
      replaced by `{ ...element, ...patch }`; when no element has that id the
      list is returned as it was. */
  function UpdateFirst<T, P>(s: seq<T>, idOf: T -> string, id: string,
                             merge: (T, P) -> T, patch: P): (r: seq<T>)
    ensures |r| == |s|
    ensures IndexOfKey(s, idOf, id) == -1 ==> r == s
    ensures forall i :: 0 <= i < |s| && i != IndexOfKey(s, idOf, id) ==> r[i] == s[i]
    ensures 0 <= IndexOfKey(s, idOf, id) ==>
              r[IndexOfKey(s, idOf, id)] == merge(s[IndexOfKey(s, idOf, id)], patch)
  {
    var index := IndexOfKey(s, idOf, id);
    if index == -1 then s else s[index := merge(s[index], patch)]
  }

  /** The list `delete` writes back: `s.filter(x => x.id !== id)`. */
  function RemoveId<T>(s: seq<T>, idOf: T -> string, id: string): (r: seq<T>)
    ensures forall i :: 0 <= i < |r| ==> idOf(r[i]) != id
    ensures forall i :: 0 <= i < |s| && idOf(s[i]) != id ==> s[i] in r
    ensures forall i :: 0 <= i < |r| ==> r[i] in s
  {
    Filter(s, x => idOf(x) != id)
  }

  /** Deleting from a concatenation deletes from each part, in order. */
  lemma RemoveIdAppend<T>(a: seq<T>, b: seq<T>, idOf: T -> string, id: string)
    ensures RemoveId(a + b, idOf, id) == RemoveId(a, idOf, id) + RemoveId(b, idOf, id)
  {
    FilterAppend(a, b, x => idOf(x) != id);
  }

  /** Deleting an id no element carries writes back the same list. */
  lemma RemoveIdAbsent<T>(s: seq<T>, idOf: T -> string, id: string)
    requires IndexOfKey(s, idOf, id) == -1
    ensures RemoveId(s, idOf, id) == s
  {
    FilterKeepsAll(s, x => idOf(x) != id);
  }

  /** Deleting twice is deleting once. */
  lemma RemoveIdIdempotent<T>(s: seq<T>, idOf: T -> string, id: string)
    ensures RemoveId(RemoveId(s, idOf, id), idOf, id) == RemoveId(s, idOf, id)
  {
    FilterIdempotent(s, x => idOf(x) != id);
  }

  /** Once an id is deleted, updating it finds nothing and changes nothing. */
  lemma UpdateAfterRemoveIsNoOp<T, P>(s: seq<T>, idOf: T -> string, id: string,
                                      merge: (T, P) -> T, patch: P)
    ensures UpdateFirst(RemoveId(s, idOf, id), idOf, id, merge, patch) == RemoveId(s, idOf, id)
  {
    var r := RemoveId(s, idOf, id);
    assert IndexOfKey(r, idOf, id) == -1;
  }

  /** Saving appends without looking at ids, so a saved duplicate is shadowed:
      `update` still finds the element that was there first. */
  lemma UpdateAfterSaveHitsFirst<T, P>(s: seq<T>, x: T, idOf: T -> string,
                                       merge: (T, P) -> T, patch: P)
    requires IndexOfKey(s, idOf, idOf(x)) != -1
    ensures UpdateFirst(s + [x], idOf, idOf(x), merge, patch)
            == UpdateFirst(s, idOf, idOf(x), merge, patch) + [x]
  {
    var i := IndexOfKey(s, idOf, idOf(x));
    assert IndexOfKey(s + [x], idOf, idOf(x)) == i by {
      assert forall k :: 0 <= k < |s| ==> (s + [x])[k] == s[k];
    }
  }

  /** The local store. The five fields are the parsed contents of the five
      keys; `hasWindow` is whether the code runs in a browser. */
  class StorageService {
    const hasWindow: bool
    var movimentacoes: seq<Movimentacao>
    var contasPagar: seq<ContaPagar>
    var contasReceber: seq<ContaReceber>
    var projetos: seq<Projeto>
    var notasFiscais: seq<NotaFiscal>

    /** A store none of whose keys has been written: every list reads as
        empty. */
    constructor (hasWindow: bool)
      ensures this.hasWindow == hasWindow
      ensures movimentacoes == [] && contasPagar == [] && contasReceber == []
      ensures projetos == [] && notasFiscais == []
    {
      this.hasWindow := hasWindow;
      movimentacoes, contasPagar, contasReceber := [], [], [];
      projetos, notasFiscais := [], [];
    }

    function GetMovimentacoes(): (r: seq<Movimentacao>)
      reads this
      ensures !hasWindow ==> r == []
      ensures hasWindow ==> r == movimentacoes
    {
      if hasWindow then movimentacoes else []
    }

    method SaveMovimentacao(m: Movimentacao)
      modifies this`movimentacoes
      ensures movimentacoes == if hasWindow then old(movimentacoes) + [m] else old(movimentacoes)
    {
      if !hasWindow { return; }
      var list := GetMovimentacoes();
      list := list + [m];
      movimentacoes := list;
    }

    method UpdateMovimentacao(id: string, patch: MovimentacaoPatch)
      modifies this`movimentacoes
      ensures movimentacoes == if hasWindow
        then UpdateFirst(old(movimentacoes), MovimentacaoId, id, MergeMovimentacao, patch)
        else old(movimentacoes)
    {
      if !hasWindow { return; }
      var list := GetMovimentacoes();
      var index := IndexOfKey(list, MovimentacaoId, id);
      if index != -1 {
        list := list[index := MergeMovimentacao(list[index], patch)];
        movimentacoes := list;
      }
    }

    method DeleteMovimentacao(id: string)
      modifies this`movimentacoes
      ensures movimentacoes == if hasWindow
        then RemoveId(old(movimentacoes), MovimentacaoId, id)
        else old(movimentacoes)
    {
      if !hasWindow { return; }
      movimentacoes := RemoveId(GetMovimentacoes(), MovimentacaoId, id);
    }

    function GetContasPagar(): (r: seq<ContaPagar>)
      reads this
      ensures !hasWindow ==> r == []
      ensures hasWindow ==> r == contasPagar
    {
      if hasWindow then contasPagar else []
    }

    method SaveContaPagar(c: ContaPagar)
      modifies this`contasPagar
      ensures contasPagar == if hasWindow then old(contasPagar) + [c] else old(contasPagar)
    {
      if !hasWindow { return; }
      var list := GetContasPagar();
      list := list + [c];
      contasPagar := list;
    }

    method UpdateContaPagar(id: string, patch: ContaPagarPatch)
      modifies this`contasPagar
      ensures contasPagar == if hasWindow
        then UpdateFirst(old(contasPagar), ContaPagarId, id, MergeContaPagar, patch)
        else old(contasPagar)
    {
      if !hasWindow { return; }
      var list := GetContasPagar();
      var index := IndexOfKey(list, ContaPagarId, id);
      if index != -1 {
        list := list[index := MergeContaPagar(list[index], patch)];
        contasPagar := list;
      }
    }

    method DeleteContaPagar(id: string)
      modifies this`contasPagar
      ensures contasPagar == if hasWindow
        then RemoveId(old(contasPagar), ContaPagarId, id)
        else old(contasPagar)
    {
      if !hasWindow { return; }
      contasPagar := RemoveId(GetContasPagar(), ContaPagarId, id);
    }

    function GetContasReceber(): (r: seq<ContaReceber>)
      reads this
      ensures !hasWindow ==> r == []
      ensures hasWindow ==> r == contasReceber
    {
      if hasWindow then contasReceber else []
    }

    method SaveContaReceber(c: ContaReceber)
      modifies this`contasReceber
      ensures contasReceber == if hasWindow then old(contasReceber) + [c] else old(contasReceber)
    {
      if !hasWindow { return; }
      var list := GetContasReceber();
      list := list + [c];
      contasReceber := list;
    }

    method UpdateContaReceber(id: string, patch: ContaReceberPatch)
      modifies this`contasReceber
      ensures contasReceber == if hasWindow
        then UpdateFirst(old(contasReceber), ContaReceberId, id, MergeContaReceber, patch)
        else old(contasReceber)
    {
      if !hasWindow { return; }
      var list := GetContasReceber();
      var index := IndexOfKey(list, ContaReceberId, id);
      if index != -1 {
        list := list[index := MergeContaReceber(list[index], patch)];
        contasReceber := list;
      }
    }

    method DeleteContaReceber(id: string)
      modifies this`contasReceber
      ensures contasReceber == if hasWindow
        then RemoveId(old(contasReceber), ContaReceberId, id)
        else old(contasReceber)
    {
      if !hasWindow { return; }
      contasReceber := RemoveId(GetContasReceber(), ContaReceberId, id);
    }

    function GetProjetos(): (r: seq<Projeto>)
      reads this
      ensures !hasWindow ==> r == []
      ensures hasWindow ==> r == projetos
    {
      if hasWindow then projetos else []
    }

    method SaveProjeto(p: Projeto)
      modifies this`projetos
      ensures projetos == if hasWindow then old(projetos) + [p] else old(projetos)
    {
      if !hasWindow { return; }
      var list := GetProjetos();
      list := list + [p];
      projetos := list;
    }

    method UpdateProjeto(id: string, patch: ProjetoPatch)
      modifies this`projetos
      ensures projetos == if hasWindow
        then UpdateFirst(old(projetos), ProjetoId, id, MergeProjeto, patch)
        else old(projetos)
    {
      if !hasWindow { return; }
      var list := GetProjetos();
      var index := IndexOfKey(list, ProjetoId, id);
      if index != -1 {
        list := list[index := MergeProjeto(list[index], patch)];
        projetos := list;
      }
    }

    method DeleteProjeto(id: string)
      modifies this`projetos
      ensures projetos == if hasWindow
        then RemoveId(old(projetos), ProjetoId, id)
        else old(projetos)
    {
      if !hasWindow { return; }
      projetos := RemoveId(GetProjetos(), ProjetoId, id);
    }

    function GetNotasFiscais(): (r: seq<NotaFiscal>)
      reads this
      ensures !hasWindow ==> r == []
      ensures hasWindow ==> r == notasFiscais
    {
      if hasWindow then notasFiscais else []
    }

    method SaveNotaFiscal(n: NotaFiscal)
      modifies this`notasFiscais
      ensures notasFiscais == if hasWindow then old(notasFiscais) + [n] else old(notasFiscais)
    {
      if !hasWindow { return; }
      var list := GetNotasFiscais();
      list := list + [n];
      notasFiscais := list;
    }

    method UpdateNotaFiscal(id: string, patch: NotaFiscalPatch)
      modifies this`notasFiscais
      ensures notasFiscais == if hasWindow
        then UpdateFirst(old(notasFiscais), NotaFiscalId, id, MergeNotaFiscal, patch)
        else old(notasFiscais)
    {
      if !hasWindow { return; }
      var list := GetNotasFiscais();
      var index := IndexOfKey(list, NotaFiscalId, id);
      if index != -1 {
        list := list[index := MergeNotaFiscal(list[index], patch)];
        notasFiscais := list;
      }
    }

    method DeleteNotaFiscal(id: string)
      modifies this`notasFiscais
      ensures notasFiscais == if hasWindow
        then RemoveId(old(notasFiscais), NotaFiscalId, id)
        else old(notasFiscais)
    {
      if !hasWindow { return; }
      notasFiscais := RemoveId(GetNotasFiscais(), NotaFiscalId, id);
    }
  }
}
