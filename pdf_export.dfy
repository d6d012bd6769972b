/**
  The printable report: a fixed header, the connections table built one row
  per connection entry, and the customer's signature image when there is one.
  The document is modelled as the sequence of things drawn on it, without
  positions, fonts or the file it is saved to.
 */
module PdfExport {
  import opened Wrappers
  import Checklist

  /** One entry of the report's connections list. */
  datatype Connection = Connection(particulars: string, remark: string)

  /**
    The data handed to the exporter. A signature is a data-URL string, or
    None where the value is null or undefined.
   */
  datatype ReportData = ReportData(
    connections: seq<Connection>,
    customerSignature: Option<string>,
    engineerSignature: Option<string>)

  /** A table row `[serial, particulars, remark]`. */
  datatype TableRow = TableRow(serial: nat, particulars: string, remark: string)

  /** One drawing call on the document. */
  datatype DrawOp =
    | Text(text: string)
    | Table(head: seq<string>, body: seq<TableRow>)
    | PngImage(dataUrl: string)

  const Title := "Smart Networking Report"
  const Company := "LAXMI SECURITY SYSTEMS AND ELECTRICALS"
  const BasicInformation := "Basic Information"
  const ConnectionsHead: seq<string> := ["S.N", "Particulars", "Remark"]

  /** JavaScript truthiness of a string that may be null or undefined. */
  predicate Truthy(value: Option<string>) {
    value.Some? && value.value != ""
  }

  /** The connections table body: one row per entry, numbered by position. */
  function TableBody(connections: seq<Connection>): (body: seq<TableRow>)
    ensures |body| == |connections|
  {
    seq(|connections|, i requires 0 <= i < |connections| =>
      TableRow(i + 1, connections[i].particulars, connections[i].remark))
  }

  /** Row i holds serial i + 1 and the i-th entry's particulars and remark, in order. */
  lemma TableBodyRows(connections: seq<Connection>)
    ensures forall i :: 0 <= i < |connections| ==>
      && TableBody(connections)[i].serial == i + 1
      && TableBody(connections)[i].particulars == connections[i].particulars
      && TableBody(connections)[i].remark == connections[i].remark
    ensures forall i, j :: 0 <= i < j < |connections| ==>
      TableBody(connections)[i].serial < TableBody(connections)[j].serial
  {
  }

  /**
    For entries whose particulars are the checklist items, the exported rows
    carry the same serial numbers and texts as the rows of the form's table.
   */
  lemma ExportMatchesForm(connections: seq<Connection>, items: seq<string>, prefix: string)
    requires |connections| == |items|
    requires forall i :: 0 <= i < |items| ==> connections[i].particulars == items[i]
    ensures |TableBody(connections)| == |Checklist.Rows(items, prefix)|
    ensures forall i :: 0 <= i < |items| ==>
      && TableBody(connections)[i].serial == Checklist.Rows(items, prefix)[i].serial
      && TableBody(connections)[i].particulars == Checklist.Rows(items, prefix)[i].particulars
  {
    Checklist.SerialsArePositions(items, prefix);
  }

  /** Everything drawn for a report, in order. */
  function ReportOps(data: ReportData): (ops: seq<DrawOp>)
    ensures |ops| >= 4
    ensures ops[..4] == [Text(Title), Text(Company), Text(BasicInformation), Table(ConnectionsHead, TableBody(data.connections))]
  {
    [Text(Title), Text(Company), Text(BasicInformation), Table(ConnectionsHead, TableBody(data.connections))]
    + (if Truthy(data.customerSignature) then [PngImage(data.customerSignature.value)] else [])
  }

  /** The header always opens with the title and the company name. */
  lemma HeaderFixed(data: ReportData)
    ensures ReportOps(data)[0] == Text(Title)
    ensures ReportOps(data)[1] == Text(Company)
  {
  }

  /** There is exactly one table, with the fixed head and the connections body. */
  lemma OneConnectionsTable(data: ReportData)
    ensures forall i :: 0 <= i < |ReportOps(data)| && ReportOps(data)[i].Table? ==>
      i == 3 && ReportOps(data)[i] == Table(ConnectionsHead, TableBody(data.connections))
  {
  }

  /**
    An image is drawn exactly when the customer's signature is truthy, and
    every image drawn is that signature: the engineer's is never embedded.
   */
  lemma CustomerSignatureOnly(data: ReportData)
    ensures (exists i :: 0 <= i < |ReportOps(data)| && ReportOps(data)[i].PngImage?) <==> Truthy(data.customerSignature)
    ensures forall i :: 0 <= i < |ReportOps(data)| && ReportOps(data)[i].PngImage? ==>
      data.customerSignature == Some(ReportOps(data)[i].dataUrl)
  {
    if Truthy(data.customerSignature) {
      assert ReportOps(data)[4].PngImage?;
    }
  }

  /** A document as the sequence of drawing calls made on it. */
  class PdfDocument {
    var ops: seq<DrawOp>

    constructor()
      ensures ops == []
    {
      ops := [];
    }

    method AddText(text: string)
      modifies this
      ensures ops == old(ops) + [Text(text)]
    {
      ops := ops + [Text(text)];
    }

    method AddTable(head: seq<string>, body: seq<TableRow>)
      modifies this
      ensures ops == old(ops) + [Table(head, body)]
    {
      ops := ops + [Table(head, body)];
    }

    method AddImage(dataUrl: string)
      modifies this
      ensures ops == old(ops) + [PngImage(dataUrl)]
    {
      ops := ops + [PngImage(dataUrl)];
    }
  }

  /** Draw the report on a new document. */
  method GenerateReportPdf(data: ReportData) returns (doc: PdfDocument)
    ensures fresh(doc)
    ensures doc.ops == ReportOps(data)
  {
    doc := new PdfDocument();
    doc.AddText(Title);
    doc.AddText(Company);
    doc.AddText(BasicInformation);
    doc.AddTable(ConnectionsHead, TableBody(data.connections));
    if Truthy(data.customerSignature) {
      doc.AddImage(data.customerSignature.value);
    }
  }
}
