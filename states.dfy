/**
 * The lifecycle table of a commandable SAL component
 * (python/salpytools/states.py): which state each command leads to, the
 * numbering of the states, and the matrix of legal transitions.
 *
 * The source fills two dictionaries and a 7 x 7 list of lists by successive
 * assignments; the result is constant, so here each is a constant function,
 * and the lemmas check what the table claims about itself.
 */
module States {

  /** The seven lifecycle states. */
  datatype State = Offline | Standby | Disabled | Enabled | Fault | Initial | Final

  /** The name under which a state appears in the tables. */
  function Name(s: State): string
  {
    match s
    case Offline => "OFFLINE"
    case Standby => "STANDBY"
    case Disabled => "DISABLED"
    case Enabled => "ENABLED"
    case Fault => "FAULT"
    case Initial => "INITIAL"
    case Final => "FINAL"
  }

  /** `next_state`: command to the name of the state it leads to, assigned in
      the source's order; the two aliases copy their underscored spelling. */
  function NextState(): map<string, string>
  {
    var m := map[]
      ["ENTER_CONTROL" := "STANDBY"]
      ["EXIT_CONTROL" := "OFFLINE"]
      ["START" := "DISABLED"]
      ["ENABLE" := "ENABLED"]
      ["DISABLE" := "DISABLED"]
      ["STANDBY" := "STANDBY"]
      ["SET_VALUE" := "ENABLED"]
      ["ABORT" := "DISABLED"]
      ["STOP" := "DISABLED"];
    m["ENTERCONTROL" := m["ENTER_CONTROL"]]["EXITCONTROL" := m["EXIT_CONTROL"]]
  }

  /** `state_names`: the states whose numbers the transport library supplies. */
  function StateNames(): seq<string>
  {
    ["DISABLED", "ENABLED", "FAULT", "OFFLINE", "STANDBY"]
  }

  /** `state_enumeration`: state name to row/column index of the matrix. */
  function StateEnumeration(): map<string, int>
  {
    map[]
      ["OFFLINE" := 0]
      ["STANDBY" := 1]
      ["DISABLED" := 2]
      ["ENABLED" := 3]
      ["FAULT" := 4]
      ["INITIAL" := 5]
      ["FINAL" := 6]
  }

  const Width := 7
  const Height := 7

  /** The cells that the source sets to true, (row, column), in its order. */
  function LegalCells(): seq<(int, int)>
  {
    [(0, 6), (0, 1), (1, 6), (1, 0), (1, 2), (1, 4), (2, 1), (2, 3), (2, 4), (3, 2), (3, 4), (5, 1)]
  }

  /** `state_matrix`: `Height` rows of `Width` cells, all false except the legal cells.
      Row is the current state's index, column the next state's. */
  function StateMatrix(): seq<seq<bool>>
  {
    seq(Height, y => seq(Width, x => (y, x) in LegalCells()))
  }

  /** The table drawn in the comment above the matrix, row by row:
      the states each state may move to. */
  function CommentRow(s: State): set<State>
  {
    match s
    case Offline => {Standby, Final}
    case Standby => {Offline, Disabled, Fault, Final}
    case Disabled => {Standby, Enabled, Fault}
    case Enabled => {Disabled, Fault}
    case Fault => {}
    case Initial => {Standby}
    case Final => {}
  }

  function CountTrue(row: seq<bool>): nat
  {
    if row == [] then 0 else (if row[0] then 1 else 0) + CountTrue(row[1..])
  }

  function CountLegal(m: seq<seq<bool>>): nat
  {
    if m == [] then 0 else CountTrue(m[0]) + CountLegal(m[1..])
  }

  /** Every target in `next_state` is a state name, so the lookup of a
      command's target in the enumeration never fails. */
  lemma NextStateTargetsAreStates()
    ensures forall c :: c in NextState() ==> NextState()[c] in StateEnumeration()
  {
  }

  /** The aliases resolve exactly as their underscored spelling. */
  lemma AliasesResolveIdentically()
    ensures "ENTERCONTROL" in NextState() && "ENTER_CONTROL" in NextState()
    ensures NextState()["ENTERCONTROL"] == NextState()["ENTER_CONTROL"] == "STANDBY"
    ensures "EXITCONTROL" in NextState() && "EXIT_CONTROL" in NextState()
    ensures NextState()["EXITCONTROL"] == NextState()["EXIT_CONTROL"] == "OFFLINE"
  {
  }

  /** The enumeration names exactly the seven states and numbers them
      one-to-one onto 0..6, the dimensions of the matrix. */
  lemma EnumerationIsBijection()
    ensures forall s :: Name(s) in StateEnumeration()
    ensures forall n :: n in StateEnumeration() ==> exists s :: Name(s) == n
    ensures forall a, b ::
              a in StateEnumeration() && b in StateEnumeration() && StateEnumeration()[a] == StateEnumeration()[b]
              ==> a == b
    ensures forall n :: n in StateEnumeration() ==> 0 <= StateEnumeration()[n] < Height
    ensures StateEnumeration().Values == {0, 1, 2, 3, 4, 5, 6}
  {
    forall n | n in StateEnumeration() ensures exists s :: Name(s) == n {
      if n == "OFFLINE" { assert Name(Offline) == n; }
      else if n == "STANDBY" { assert Name(Standby) == n; }
      else if n == "DISABLED" { assert Name(Disabled) == n; }
      else if n == "ENABLED" { assert Name(Enabled) == n; }
      else if n == "FAULT" { assert Name(Fault) == n; }
      else if n == "INITIAL" { assert Name(Initial) == n; }
      else { assert Name(Final) == n; }
    }
    forall i | 0 <= i < Height ensures i in StateEnumeration().Values {
      var names := ["OFFLINE", "STANDBY", "DISABLED", "ENABLED", "FAULT", "INITIAL", "FINAL"];
      assert names[i] in StateEnumeration() && StateEnumeration()[names[i]] == i;
    }
  }

  /** The library-numbered states are all states of the enumeration;
      INITIAL and FINAL are not among them. */
  lemma StateNamesAreEnumerated()
    ensures forall n :: n in StateNames() ==> n in StateEnumeration()
    ensures "INITIAL" !in StateNames() && "FINAL" !in StateNames()
  {
  }

  /** The matrix is 7 x 7. */
  lemma MatrixIsSquare()
    ensures |StateMatrix()| == Height
    ensures forall y :: 0 <= y < Height ==> |StateMatrix()[y]| == Width
  {
  }

  /** The matrix rows, written out as the assignments leave them. */
  lemma MatrixRows()
    ensures StateMatrix() == [
      [false, true,  false, false, false, false, true ],
      [true,  false, true,  false, true,  false, true ],
      [false, true,  false, true,  true,  false, false],
      [false, false, true,  false, true,  false, false],
      [false, false, false, false, false, false, false],
      [false, true,  false, false, false, false, false],
      [false, false, false, false, false, false, false]]
  {
    var m := StateMatrix();
    assert m[0] == [false, true,  false, false, false, false, true ];
    assert m[1] == [true,  false, true,  false, true,  false, true ];
    assert m[2] == [false, true,  false, true,  true,  false, false];
    assert m[3] == [false, false, true,  false, true,  false, false];
    assert m[4] == [false, false, false, false, false, false, false];
    assert m[5] == [false, true,  false, false, false, false, false];
    assert m[6] == [false, false, false, false, false, false, false];
  }

  /** Exactly the twelve assigned cells are legal. The second clause holds by
      the definition of `StateMatrix`; the count is what is proved here. */
  lemma ExactlyTwelveLegal()
    ensures CountLegal(StateMatrix()) == |LegalCells()| == 12
    ensures forall y, x :: 0 <= y < Height && 0 <= x < Width ==>
              (StateMatrix()[y][x] <==> (y, x) in LegalCells())
  {
    assert CountLegal(StateMatrix()) == 12 by {
      MatrixRows();
    }
  }

  /** No state may move to itself. */
  lemma NoSelfTransitions()
    ensures forall i :: 0 <= i < Height ==> !StateMatrix()[i][i]
  {
    MatrixRows();
  }

  /** FAULT (4) and FINAL (6) are sinks; INITIAL (5) leads only to STANDBY (1). */
  lemma SinksAndInitial()
    ensures forall x :: 0 <= x < Width ==> !StateMatrix()[4][x] && !StateMatrix()[6][x]
    ensures forall x :: 0 <= x < Width ==> (StateMatrix()[5][x] <==> x == 1)
  {
    MatrixRows();
  }

  /** The coded matrix agrees cell for cell with the comment table. */
  lemma MatrixMatchesCommentTable()
    ensures forall a, b ::
              StateMatrix()[StateEnumeration()[Name(a)]][StateEnumeration()[Name(b)]] <==> b in CommentRow(a)
  {
    MatrixRows();
  }
}
