/**
  The two checklist tables of the form (connections and tests): fixed, ordered
  item lists, each rendered as one row per item with a serial number taken
  from the item's position and a remark input named after that position.
 */
module Checklist {
  import opened Decimal
  import opened ReportSchema

  /** The connection items as the report form lists them inline. */
  const AppConnectionItems: seq<string> := [
    "Network equipment was installed in a standard network rack",
    "Patch panels are labelled and organised for easy access",
    "Cable management accessories are used for proper routing",
    "Devices are mounted securely with proper ventilation",
    "Power is provided via UPS and tested for failover",
    "Structured cabling completed with labelling",
    "Backbone uplinks are configured between switches",
    "Suggest periodic backup of configurations",
    "Guest WiFi isolation is enabled for security"
  ]

  /** The test items as the report form lists them inline. */
  const AppTestItems: seq<string> := [
    "Speed test and latency checks performed",
    "Internet access was tested from multiple devices",
    "Wireless coverage checked using signal strength tools",
    "Ping and traceroute verified for LAN/WAN connectivity",
    "Failover tested (if redundant equipment is used)"
  ]

  /** The shared lists, which so far hold the first two items of each. */
  const SharedConnectionItems: seq<string> := [
    "Network equipment was installed in a standard network rack",
    "Patch panels are labelled and organised for easy access"
  ]

  const SharedTestItems: seq<string> := [
    "Speed test and latency checks performed",
    "Internet access was tested from multiple devices"
  ]

  const ConnectionRemarkPrefix := "connectionRemark"
  const TestResultPrefix := "testResult"

  /** One rendered row: serial number, the item's text, the name of its remark input. */
  datatype Row = Row(serial: nat, particulars: string, remarkField: string)

  /** The name of the remark input of the row at `index`. */
  function RemarkField(prefix: string, index: nat): (name: string)
    ensures |name| > |prefix| && name[..|prefix|] == prefix
  {
    prefix + NatToString(index)
  }

  /** The rows of a checklist table, one per item, in the items' order. */
  function Rows(items: seq<string>, prefix: string): (rows: seq<Row>)
    ensures |rows| == |items|
    ensures forall i :: 0 <= i < |rows| ==> rows[i].particulars == items[i]
    ensures forall i :: 0 <= i < |rows| ==> rows[i].remarkField == RemarkField(prefix, i)
  {
    seq(|items|, i requires 0 <= i < |items| => Row(i + 1, items[i], RemarkField(prefix, i)))
  }

  /** The connections and tests tables of the component built on the shared lists. */
  function SharedTables(): (tables: (seq<Row>, seq<Row>))
    ensures |tables.0| == |SharedConnectionItems| && |tables.1| == |SharedTestItems|
    ensures forall i :: 0 <= i < |tables.0| ==>
      tables.0[i].particulars == SharedConnectionItems[i] && tables.0[i].remarkField == RemarkField(ConnectionRemarkPrefix, i)
    ensures forall i :: 0 <= i < |tables.1| ==>
      tables.1[i].particulars == SharedTestItems[i] && tables.1[i].remarkField == RemarkField(TestResultPrefix, i)
  {
    (Rows(SharedConnectionItems, ConnectionRemarkPrefix), Rows(SharedTestItems, TestResultPrefix))
  }

  /** Serial numbers run 1, 2, ..., n: they come from the position, never from the items. */
  lemma SerialsArePositions(items: seq<string>, prefix: string)
    ensures forall i :: 0 <= i < |Rows(items, prefix)| ==> Rows(items, prefix)[i].serial == i + 1
    ensures forall i, j :: 0 <= i < j < |Rows(items, prefix)| ==>
      Rows(items, prefix)[i].serial < Rows(items, prefix)[j].serial
  {
  }

  /** Different rows of one table have different remark inputs. */
  lemma RemarkFieldsDistinct(prefix: string, i: nat, j: nat)
    ensures RemarkField(prefix, i) == RemarkField(prefix, j) <==> i == j
  {
    if RemarkField(prefix, i) == RemarkField(prefix, j) {
      assert NatToString(i) == RemarkField(prefix, i)[|prefix|..];
      assert NatToString(j) == RemarkField(prefix, j)[|prefix|..];
      NatToStringInjective(i, j);
    }
  }

  /** A connection remark input never shares its name with a test result input. */
  lemma TablesNeverShareFields(i: nat, j: nat)
    ensures RemarkField(ConnectionRemarkPrefix, i) != RemarkField(TestResultPrefix, j)
  {
    assert RemarkField(ConnectionRemarkPrefix, i)[0] == 'c';
    assert RemarkField(TestResultPrefix, j)[0] == 't';
  }

  /**
    No remark input is a field of the schema: remarks are never validated,
    and the schema parser does not keep them.
   */
  lemma RemarkFieldsOutsideSchema(i: nat)
    ensures RemarkField(ConnectionRemarkPrefix, i) !in AppSchema
    ensures RemarkField(TestResultPrefix, i) !in AppSchema
  {
    AppSchemaKeys();
    ConnectionRemarkNotField(i);
    TestResultNotField(i);
  }

  lemma ConnectionRemarkNotField(i: nat)
    ensures RemarkField(ConnectionRemarkPrefix, i) !in AppFields
  {
    var c := RemarkField(ConnectionRemarkPrefix, i);
    assert c[..16] == "connectionRemark";
    assert IsDigit(c[16]);
  }

  lemma TestResultNotField(i: nat)
    ensures RemarkField(TestResultPrefix, i) !in AppFields
  {
    var t := RemarkField(TestResultPrefix, i);
    assert t[..10] == "testResult";
    assert IsDigit(t[10]);
  }

  /** The shared lists agree with the inline ones on the items they hold, position by position. */
  lemma SharedListsArePrefixes()
    ensures SharedConnectionItems == AppConnectionItems[..2]
    ensures SharedTestItems == AppTestItems[..2]
  {
  }
}
