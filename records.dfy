/**
  The "Medical Records" page: one collapsible card per record, opened and closed one
  at a time through a map from record id to its open state.
 */
module MyRecords {
  import opened Options
  import opened Seqs

  /** A medical record; `vitals` maps a reading's name to its displayed value. */
  datatype MedicalRecord = MedicalRecord(id: string, recordType: string, vitals: Option<map<string, string>>)

  /** `openRecords[id]`: an id that was never toggled reads as closed. */
  predicate IsOpen(openRecords: map<string, bool>, id: string) {
    id in openRecords && openRecords[id]
  }

  /** `{ ...prev, [id]: !prev[id] }`. */
  function Toggle(openRecords: map<string, bool>, id: string): map<string, bool> {
    openRecords[id := !IsOpen(openRecords, id)]
  }

  /** A toggle flips the open state of its own record and of no other. */
  lemma ToggleFlipsOnlyItsRecord(openRecords: map<string, bool>, id: string, other: string)
    ensures IsOpen(Toggle(openRecords, id), id) <==> !IsOpen(openRecords, id)
    ensures other != id ==> IsOpen(Toggle(openRecords, id), other) == IsOpen(openRecords, other)
    ensures other != id ==> (other in Toggle(openRecords, id) <==> other in openRecords)
    ensures other != id && other in openRecords ==> Toggle(openRecords, id)[other] == openRecords[other]
  {
  }

  /**
    Toggling the same record twice restores its open state, and leaves the map as it
    was when the record had been toggled before.
   */
  lemma ToggleTwice(openRecords: map<string, bool>, id: string)
    ensures forall other :: IsOpen(Toggle(Toggle(openRecords, id), id), other) == IsOpen(openRecords, other)
    ensures id in openRecords ==> Toggle(Toggle(openRecords, id), id) == openRecords
  {
    forall other
      ensures IsOpen(Toggle(Toggle(openRecords, id), id), other) == IsOpen(openRecords, other)
    {
      ToggleFlipsOnlyItsRecord(openRecords, id, other);
      ToggleFlipsOnlyItsRecord(Toggle(openRecords, id), id, other);
    }
  }

  /** The map after a run of clicks on the given record ids, in order. */
  function ToggleAll(openRecords: map<string, bool>, ids: seq<string>): map<string, bool>
    decreases |ids|
  {
    if ids == [] then openRecords else ToggleAll(Toggle(openRecords, ids[0]), ids[1..])
  }

  /** How many times `id` occurs in `ids`. */
  function Count(ids: seq<string>, id: string): nat {
    if ids == [] then 0 else (if ids[0] == id then 1 else 0) + Count(ids[1..], id)
  }

  /** After a run of clicks, a record's state has flipped iff it was clicked an odd number of times. */
  lemma {:induction false} ToggleParity(openRecords: map<string, bool>, ids: seq<string>, id: string)
    ensures IsOpen(ToggleAll(openRecords, ids), id) <==> (IsOpen(openRecords, id) != (Count(ids, id) % 2 == 1))
    decreases |ids|
  {
    if ids != [] {
      ToggleFlipsOnlyItsRecord(openRecords, ids[0], id);
      ToggleParity(Toggle(openRecords, ids[0]), ids[1..], id);
    }
  }

  /** The page's state: which record cards are open. */
  class RecordsView {
    var openRecords: map<string, bool>

    /** Every card starts closed. */
    constructor ()
      ensures openRecords == map[]
      ensures forall id :: !IsOpenRecord(id)
    {
      openRecords := map[];
    }

    predicate IsOpenRecord(id: string)
      reads this
    {
      IsOpen(openRecords, id)
    }

    /** The click on a card's header. */
    method ToggleRecord(id: string)
      modifies this
      ensures openRecords == Toggle(old(openRecords), id)
      ensures IsOpenRecord(id) <==> !old(IsOpenRecord(id))
      ensures forall other :: other != id ==> IsOpenRecord(other) == old(IsOpenRecord(other))
    {
      openRecords := openRecords[id := !IsOpen(openRecords, id)];
    }
  }

  /** The icons of the record cards. */
  datatype TypeIcon = Stethoscope | FileText | Pill | Heart

  /** `typeIcons[record_type] || FileText`. */
  function IconFor(recordType: string): (r: TypeIcon)
    ensures r == Stethoscope <==> recordType == "Consultation"
    ensures r == Pill <==> recordType == "Prescription"
    ensures r == Heart <==> recordType == "Surgery Report"
    ensures r == FileText <==> recordType !in {"Consultation", "Prescription", "Surgery Report"}
  {
    match recordType
    case "Consultation" => Stethoscope
    case "Lab Results" => FileText
    case "Prescription" => Pill
    case "Surgery Report" => Heart
    case "Imaging" => FileText
    case "Discharge Summary" => FileText
    case _ => FileText
  }

  /** The vitals block: shown when the record carries at least one reading. */
  function ShowVitals(r: MedicalRecord): (show: bool)
    ensures show <==> r.vitals.Some? && exists k :: k in r.vitals.value
  {
    r.vitals.Some? && |r.vitals.value.Keys| > 0
  }

  /** The readings the vitals block lists, in its fixed order, each only when set. */
  const VitalKeys: seq<string> := ["blood_pressure", "heart_rate", "temperature", "weight"]

  /** Whether the vitals block lists reading `k`: it is present and not empty. */
  function IsShownVital(vitals: map<string, string>): string -> bool {
    (k: string) => k in vitals && vitals[k] != ""
  }

  /** One reading's line of the vitals block: the reading when it is set, nothing otherwise. */
  function VitalLine(vitals: map<string, string>, k: string): seq<string> {
    if k in vitals && vitals[k] != "" then [k] else []
  }

  function ShownVitals(vitals: map<string, string>): (r: seq<string>)
    ensures |r| <= 4
    ensures forall k :: k in r <==> k in VitalKeys && k in vitals && vitals[k] != ""
    ensures SubseqOf(r, VitalKeys)
  {
    var r := VitalLine(vitals, "blood_pressure") + VitalLine(vitals, "heart_rate")
      + VitalLine(vitals, "temperature") + VitalLine(vitals, "weight");
    FilterIsSubseq(VitalKeys, IsShownVital(vitals));
    ShownVitalsIsFilter(vitals);
    r
  }

  /** The four conditional lines, in the block's order, are the set readings among `VitalKeys`. */
  lemma {:induction false} ShownVitalsIsFilter(vitals: map<string, string>)
    ensures VitalLine(vitals, "blood_pressure") + VitalLine(vitals, "heart_rate")
      + VitalLine(vitals, "temperature") + VitalLine(vitals, "weight") == Filter(VitalKeys, IsShownVital(vitals))
  {
    var p := IsShownVital(vitals);
    var a, b, c, d := ["blood_pressure"], ["heart_rate"], ["temperature"], ["weight"];
    assert VitalKeys == a + b + c + d;
    FilterAppend(a + b + c, d, p);
    FilterAppend(a + b, c, p);
    FilterAppend(a, b, p);
    VitalLineIsFilter(vitals, "blood_pressure");
    VitalLineIsFilter(vitals, "heart_rate");
    VitalLineIsFilter(vitals, "temperature");
    VitalLineIsFilter(vitals, "weight");
  }

  lemma VitalLineIsFilter(vitals: map<string, string>, k: string)
    ensures Filter([k], IsShownVital(vitals)) == VitalLine(vitals, k)
  {
    FilterCons([k], IsShownVital(vitals));
    assert [k][1..] == [];
  }
}
