/** The status badge colours of the payable and receivable pages
    (`getStatusColor` in app/contas-pagar/page.tsx and
    app/contas-receber/page.tsx). */
module Badges {
  datatype Badge = Verde | Vermelho | Amarelo

  /** The CSS classes each colour stands for. */
  function Classes(b: Badge): string {
    match b
    case Verde => "bg-green-100 text-green-800"
    case Vermelho => "bg-red-100 text-red-800"
    case Amarelo => "bg-yellow-100 text-yellow-800"
  }

  /** Different colours have different classes. */
  lemma ClassesDistinct(b: Badge, c: Badge)
    requires b != c
    ensures Classes(b) != Classes(c)
  {
    assert Classes(b)[4] != Classes(c)[4] || Classes(b)[3] != Classes(c)[3];
  }
}
