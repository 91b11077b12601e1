// The fixed-layout tables of the older, positional encoder
// (src/specification/bitmap_templates.rs): an ordered list of entries, each
// naming a key of the data map, the width the value is padded to, and the
// string repeated in front of a shorter value. An entry named "separator"
// stands for the dialect's separator instead of a key.

module SpecificationTemplates {

  datatype Entry = Entry(field: string, width: nat, pad: string)

  /** The entry name that emits the dialect's separator. */
  const SeparatorField: string := "separator"

  /** `ISO8853_BITMAP_TEMPLATE`. */
  const Iso8853Table: seq<Entry> := [
    Entry("first_bit", 3, ""),
    Entry(SeparatorField, 1, ""),
    Entry("request_type", 4, " "),
    Entry(SeparatorField, 1, ""),
    Entry("account_number", 20, "0"),
    Entry("network", 1, ""),
    Entry("expiry_date", 6, ""),
    Entry("security_code", 4, "0"),
    Entry(SeparatorField, 1, ""),
    Entry("amount", 10, "0"),
    Entry("currency", 3, ""),
    Entry("name", 20, " ")]

  /** `APACS_BITMAP_TEMPLATE`. */
  const ApacsTable: seq<Entry> := [
    Entry("request_type", 2, " "),
    Entry("expiry_date", 6, ""),
    Entry("security_code", 4, "0"),
    Entry("account_number", 16, ""),
    Entry("network", 1, ""),
    Entry("currency", 3, ""),
    Entry("amount", 10, "0"),
    Entry("name", 20, " ")]

  /** Every pad is empty or a single character, and every width is positive. */
  predicate PadsAndWidths(t: seq<Entry>)
  {
    forall i :: 0 <= i < |t| ==> |t[i].pad| <= 1 && t[i].width > 0
  }

  /**
   * The ISO8853 table: twelve entries, separators exactly at indices 1, 3
   * and 8, the three-wide `first_bit` first and the four-wide, space-padded
   * `request_type` third.
   */
  lemma Iso8853TableShape()
    ensures |Iso8853Table| == 12
    ensures forall i :: 0 <= i < |Iso8853Table| ==>
              (Iso8853Table[i].field == SeparatorField <==> i == 1 || i == 3 || i == 8)
    ensures Iso8853Table[0] == Entry("first_bit", 3, "")
    ensures Iso8853Table[2] == Entry("request_type", 4, " ")
    ensures PadsAndWidths(Iso8853Table)
  {
  }

  /** The keys the ISO8853 table reads, all of which a complete map must hold. */
  lemma Iso8853TableFields(keys: set<string>)
    requires {"first_bit", "request_type", "account_number", "network", "expiry_date", "security_code",
              "amount", "currency", "name"} <= keys
    ensures forall i :: 0 <= i < |Iso8853Table| && Iso8853Table[i].field != SeparatorField ==>
              Iso8853Table[i].field in keys
  {
  }

  /**
   * The APACS table: eight entries, no separator, no `first_bit`, and the
   * two-wide `request_type` first.
   */
  lemma ApacsTableShape()
    ensures |ApacsTable| == 8
    ensures forall i :: 0 <= i < |ApacsTable| ==> ApacsTable[i].field != SeparatorField
    ensures forall i :: 0 <= i < |ApacsTable| ==> ApacsTable[i].field != "first_bit"
    ensures ApacsTable[0] == Entry("request_type", 2, " ")
    ensures PadsAndWidths(ApacsTable)
  {
  }

  /** The keys the APACS table reads, all of which a complete map must hold. */
  lemma ApacsTableFields(keys: set<string>)
    requires {"request_type", "expiry_date", "security_code", "account_number", "network", "currency",
              "amount", "name"} <= keys
    ensures forall i :: 0 <= i < |ApacsTable| ==> ApacsTable[i].field in keys
  {
  }
}
