/**
 * The Switch demo page: a single switch and a table of switch rows whose
 * first row can be hidden.
 */
module SwitchDemo {

  /** One table row: a switch and whether it is on. */
  datatype Row = Row(id: string, isChecked: bool)

  /** `data.map(d => d.id === id ? { ...d, isChecked } : d)`. */
  function SetChecked(data: seq<Row>, id: string, isChecked: bool): (r: seq<Row>)
    ensures |r| == |data|
    ensures forall i :: 0 <= i < |data| ==> r[i].id == data[i].id
    ensures forall i :: 0 <= i < |data| && data[i].id == id ==> r[i].isChecked == isChecked
    ensures forall i :: 0 <= i < |data| && data[i].id != id ==> r[i] == data[i]
  {
    if data == [] then []
    else [if data[0].id == id then data[0].(isChecked := isChecked) else data[0]]
         + SetChecked(data[1..], id, isChecked)
  }

  /** Setting the same switch twice keeps only the last value. */
  lemma SetCheckedLastWins(data: seq<Row>, id: string, b: bool, c: bool)
    ensures SetChecked(SetChecked(data, id, b), id, c) == SetChecked(data, id, c)
  {
  }

  /** Changes to two different switches do not interfere. */
  lemma SetCheckedCommutes(data: seq<Row>, id1: string, b1: bool, id2: string, b2: bool)
    requires id1 != id2
    ensures SetChecked(SetChecked(data, id1, b1), id2, b2) == SetChecked(SetChecked(data, id2, b2), id1, b1)
  {
  }

  /** The rows `renderTable` shows: all of them, or all but the first (`[_first, ...rest]`). */
  function DisplayedRows(data: seq<Row>, all: bool): (r: seq<Row>)
    ensures all ==> r == data
    ensures !all && data == [] ==> r == []
    ensures !all && data != [] ==> |r| == |data| - 1 && forall i :: 0 <= i < |r| ==> r[i] == data[i + 1]
  {
    if all || data == [] then data else data[1..]
  }

  /** The page state: the simple switch, and the table with its "show all" flag. */
  class SwitchDemoComponent {
    var simpleIsChecked: bool
    var data: seq<Row>
    var all: bool

    /** Three unchecked rows shown in full; the simple switch starts on. */
    constructor ()
      ensures simpleIsChecked
      ensures data == [Row("id1", false), Row("id2", false), Row("id3", false)]
      ensures all
    {
      simpleIsChecked := true;
      data := [Row("id1", false), Row("id2", false), Row("id3", false)];
      all := true;
    }

    method HandleChangeSimple(isChecked: bool)
      modifies this
      ensures simpleIsChecked == isChecked
      ensures data == old(data) && all == old(all)
    {
      simpleIsChecked := isChecked;
    }

    /** The change handler of row `id`: sets that row's switch, leaving the rest of the state alone. */
    method HandleChangeTable(id: string, isChecked: bool)
      modifies this
      ensures data == SetChecked(old(data), id, isChecked)
      ensures all == old(all) && simpleIsChecked == old(simpleIsChecked)
    {
      data := SetChecked(data, id, isChecked);
    }

    method ShowAllTable()
      modifies this
      ensures all == !old(all)
      ensures data == old(data) && simpleIsChecked == old(simpleIsChecked)
    {
      all := !all;
    }

    function RenderedRows(): (r: seq<Row>)
      reads this
      ensures all ==> r == data
      ensures !all && data != [] ==> r == data[1..]
    {
      DisplayedRows(data, all)
    }
  }

  /** Pressing "Show all" twice restores the table. */
  method ShowAllTwice(d: SwitchDemoComponent)
    modifies d
    ensures d.all == old(d.all) && d.data == old(d.data) && d.simpleIsChecked == old(d.simpleIsChecked)
  {
    d.ShowAllTable();
    d.ShowAllTable();
  }

  /** On the initial page, hiding the first row leaves the last two, still unchecked. */
  method InitialHiddenRows() returns (rows: seq<Row>)
    ensures rows == [Row("id2", false), Row("id3", false)]
  {
    var d := new SwitchDemoComponent();
    d.ShowAllTable();
    rows := d.RenderedRows();
  }
}
