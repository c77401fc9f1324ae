/**
 * `EventCard`: the public card of one scheduled activity, reduced to its
 * two badges (type and status, each a colour class and a label) and the
 * conditions under which the participant and price lines appear.
 *
 * The lookup tables are plain object literals; a key that is not one of
 * the four listed falls back to the ghost class, or to the key itself as
 * its label.
 */
module EventCard {
  import opened Wrappers
  import opened Text

  const StatusBadges: map<string, string> :=
    map["terjadwal" := "badge-info", "berlangsung" := "badge-success",
        "selesai" := "badge-neutral", "dibatalkan" := "badge-error"]

  const JenisBadges: map<string, string> :=
    map["acara" := "badge-primary", "sesi_studio" := "badge-secondary",
        "konser" := "badge-accent", "rekaman" := "badge-warning"]

  const JenisLabels: map<string, string> :=
    map["acara" := "Acara", "sesi_studio" := "Sesi Studio", "konser" := "Konser", "rekaman" := "Rekaman"]

  const StatusLabels: map<string, string> :=
    map["terjadwal" := "Terjadwal", "berlangsung" := "Berlangsung",
        "selesai" := "Selesai", "dibatalkan" := "Dibatalkan"]

  const Ghost: string := "badge-ghost"

  /** `getStatusBadge`: a known status gets its own class, any other status the ghost class. */
  function StatusBadge(status: string): (c: string)
    ensures c == Ghost <==> status !in StatusBadges
    ensures status in StatusBadges ==> c == StatusBadges[status]
    ensures c in {"badge-info", "badge-success", "badge-neutral", "badge-error", Ghost}
  {
    if status in StatusBadges then StatusBadges[status] else Ghost
  }

  /** `getJenisBadge`: a known type gets its own class, any other type the ghost class. */
  function JenisBadge(jenis: string): (c: string)
    ensures c == Ghost <==> jenis !in JenisBadges
    ensures jenis in JenisBadges ==> c == JenisBadges[jenis]
    ensures c in {"badge-primary", "badge-secondary", "badge-accent", "badge-warning", Ghost}
  {
    if jenis in JenisBadges then JenisBadges[jenis] else Ghost
  }

  /** `formatJenis`: the label of a known type, or the type unchanged. */
  function FormatJenis(jenis: string): (l: string)
    ensures jenis !in JenisLabels ==> l == jenis
    ensures jenis in JenisLabels ==> l == JenisLabels[jenis]
    ensures jenis in JenisLabels ==> l != jenis && l in JenisLabels.Values
    ensures jenis in JenisLabels ==> |l| == |jenis| && l[0] == Upper(jenis[0])
  {
    if jenis in JenisLabels then JenisLabels[jenis] else jenis
  }

  /** `formatStatus`: the label of a known status, or the status unchanged. */
  function FormatStatus(status: string): (l: string)
    ensures status !in StatusLabels ==> l == status
    ensures status in StatusLabels ==> l == StatusLabels[status]
    ensures status in StatusLabels ==> l != status && l in StatusLabels.Values
    ensures status in StatusLabels ==> |l| == |status| && l[0] == Upper(status[0])
  {
    if status in StatusLabels then StatusLabels[status] else status
  }

  /** An ASCII lower-case letter in upper case; anything else unchanged. */
  function Upper(c: char): char
  {
    if 'a' <= c <= 'z' then (c as int - 'a' as int + 'A' as int) as char else c
  }

  /** The badge tables and the label tables know the same keys. */
  lemma TablesAgree()
    ensures StatusBadges.Keys == StatusLabels.Keys
    ensures JenisBadges.Keys == JenisLabels.Keys
  {
  }

  /**
   * A badge shows the ghost class exactly when its label is the raw value:
   * an unknown type or status is at once grey and unformatted.
   */
  lemma GhostIffRaw(jenis: string, status: string)
    ensures JenisBadge(jenis) == Ghost <==> jenis !in JenisLabels
    ensures StatusBadge(status) == Ghost <==> status !in StatusLabels
    ensures jenis !in JenisLabels ==> FormatJenis(jenis) == jenis
    ensures status !in StatusLabels ==> FormatStatus(status) == status
  {
    TablesAgree();
  }

  /** Formatting a label again changes nothing: no label is itself a key. */
  lemma FormatIdempotent(jenis: string, status: string)
    ensures FormatJenis(FormatJenis(jenis)) == FormatJenis(jenis)
    ensures FormatStatus(FormatStatus(status)) == FormatStatus(status)
  {
  }

  /** What one optional line of the card puts on the page. */
  datatype Slot =
    | Empty                                 // nothing
    | Stray(text: string)                   // the left operand of `&&`, rendered as text
    | ParticipantLine(current: int, max: int)
    | PriceLine(amount: int)

  /**
   * The participant line as written, `maksimal_peserta && (...)`: absent
   * when the limit is missing, the number 0 itself when the limit is 0,
   * the line for any other limit.
   */
  function ParticipantSlotAsWritten(current: int, max: Option<int>): (s: Slot)
    ensures s.ParticipantLine? <==> TruthyNumber(max)
    ensures max.None? ==> s == Empty
    ensures max == Some(0) ==> s == Stray("0")
    ensures max.Some? && max.value != 0 ==> s == ParticipantLine(current, max.value)
  {
    match max
    case None => Empty
    case Some(m) => if m == 0 then Stray("0") else ParticipantLine(current, m)
  }

  /** The participant line as evidently intended: shown for a non-zero limit, nothing otherwise. */
  function ParticipantSlot(current: int, max: Option<int>): (s: Slot)
    ensures !s.Stray?
    ensures s.ParticipantLine? <==> max.Some? && max.value != 0
    ensures s.ParticipantLine? ==> s.current == current && s.max == max.value
  {
    if max.Some? && max.value != 0 then ParticipantLine(current, max.value) else Empty
  }

  /** A limit of 0 leaves a bare "0" on the card; the corrected slot shows nothing. */
  lemma ParticipantZeroShowsStray(current: int)
    ensures ParticipantSlotAsWritten(current, Some(0)) == Stray("0")
    ensures ParticipantSlot(current, Some(0)) == Empty
  {
  }

  /** Apart from a zero limit, the written and the corrected slots agree. */
  lemma ParticipantSlotsAgree(current: int, max: Option<int>)
    ensures max != Some(0) ==> ParticipantSlotAsWritten(current, max) == ParticipantSlot(current, max)
    ensures max == Some(0) ==> ParticipantSlotAsWritten(current, max) != ParticipantSlot(current, max)
  {
  }

  /**
   * The price line as written, `harga && harga > 0 && (...)`: absent when
   * the price is missing or negative, the number 0 itself when the price
   * is 0, the line for a positive price.
   */
  function PriceSlotAsWritten(harga: Option<int>): (s: Slot)
    ensures s.PriceLine? <==> TruthyNumber(harga) && harga.value > 0
    ensures harga.None? ==> s == Empty
    ensures harga == Some(0) ==> s == Stray("0")
    ensures harga.Some? && harga.value < 0 ==> s == Empty
    ensures harga.Some? && harga.value > 0 ==> s == PriceLine(harga.value)
  {
    match harga
    case None => Empty
    case Some(h) => if h == 0 then Stray("0") else if h > 0 then PriceLine(h) else Empty
  }

  /**
   * The price line as evidently intended, and as the activity's detail
   * page writes it (`harga !== undefined && harga > 0`): shown exactly for
   * a positive price.
   */
  function PriceSlot(harga: Option<int>): (s: Slot)
    ensures !s.Stray?
    ensures s.PriceLine? <==> harga.Some? && harga.value > 0
    ensures s.PriceLine? ==> s.amount == harga.value
    ensures !s.PriceLine? ==> s == Empty
  {
    if harga.Some? && harga.value > 0 then PriceLine(harga.value) else Empty
  }

  /** A free activity (price 0, which the activity form allows) shows a bare "0"; the corrected slot shows nothing. */
  lemma PriceZeroShowsStray()
    ensures PriceSlotAsWritten(Some(0)) == Stray("0")
    ensures PriceSlot(Some(0)) == Empty
  {
  }

  /** Apart from a zero price, the written and the corrected slots agree. */
  lemma PriceSlotsAgree(harga: Option<int>)
    ensures harga != Some(0) ==> PriceSlotAsWritten(harga) == PriceSlot(harga)
    ensures harga == Some(0) ==> PriceSlotAsWritten(harga) != PriceSlot(harga)
  {
  }
}
