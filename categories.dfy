/** The 13 states of the interval13 gene model and the three duration
    categories they collapse into. */
module Categories {
  import opened Wrappers

  /** Number of states of the interval13 model. */
  const NUM_STATES: int := 13

  datatype Category = Intergenic | Exon | Intron

  /** The routing switch of the scorer: state 0 is intergenic, states
      1-3 and 7-9 are exonic, states 4-6 and 10-12 are intronic; any other
      id has no category. */
  function CategoryOf(state: int): (r: Option<Category>)
    ensures r.Some? <==> 0 <= state < NUM_STATES
    ensures r == Some(Intergenic) <==> state == 0
  {
    if state == 0 then Some(Intergenic)
    else if state in {1, 2, 3, 7, 8, 9} then Some(Exon)
    else if state in {4, 5, 6, 10, 11, 12} then Some(Intron)
    else None
  }

  /** Position of a category's weight relative to the feature's start index
      when every category has its own weight. */
  function Offset(c: Category): (k: nat)
    ensures k < 3
    ensures CategoryAt(k) == c
  {
    match c
    case Intergenic => 0
    case Exon => 1
    case Intron => 2
  }

  /** Inverse of Offset. */
  function CategoryAt(k: nat): Category
    requires k < 3
  {
    if k == 0 then Intergenic else if k == 1 then Exon else Intron
  }

  /** Display name of a category. */
  function Name(c: Category): string {
    match c
    case Intergenic => "Intergenic"
    case Exon => "Exon"
    case Intron => "Intron"
  }

  /** The states whose run lengths training pools into a category, in the
      order training appends them. */
  function StatesOf(c: Category): seq<int> {
    match c
    case Intergenic => [0]
    case Exon => [1, 2, 3, 7, 8, 9]
    case Intron => [4, 5, 6, 10, 11, 12]
  }

  /** The pooling table and the routing switch agree: a state is pooled into
      exactly the category it is scored with. */
  lemma {:induction false} PoolingAgreesWithRouting(state: int, c: Category)
    ensures state in StatesOf(c) <==> CategoryOf(state) == Some(c)
  {
  }

  /** Every state id 0..12 belongs to exactly one category, and no other id
      belongs to any. */
  lemma {:induction false} StatesPartition(state: int)
    ensures 0 <= state < NUM_STATES ==>
      exists c :: state in StatesOf(c) && forall d :: state in StatesOf(d) ==> d == c
    ensures !(0 <= state < NUM_STATES) ==> forall c :: state !in StatesOf(c)
  {
    if 0 <= state < NUM_STATES {
      var c := CategoryOf(state).value;
      PoolingAgreesWithRouting(state, c);
      forall d | state in StatesOf(d) ensures d == c {
        PoolingAgreesWithRouting(state, d);
      }
    } else {
      forall c ensures state !in StatesOf(c) {
        PoolingAgreesWithRouting(state, c);
      }
    }
  }
}
