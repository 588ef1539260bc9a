/**
 * The power-supply record and the four total decoders of
 * src/device/power_supply.rs. Each decoder maps the exact sysfs literal of
 * a variant to that variant and every other string to `Unknown`; each is
 * specified against the literal a variant is written as.
 */
module PowerSupply {

  /** Power supply type. */
  datatype Type =
    | Unknown | Battery | UPS | Mains | USB | USB_DCP | USB_CDP | USB_ACA
    | USB_C | USB_PD | USB_PD_DRP | BrickID | Wireless

  /** Power supply status. */
  datatype Status = Unknown | Charging | Discharging | NotCharging | Full

  /** Battery chemistry. */
  datatype Technology = Unknown | NiMH | LiIon | LiPoly | LiFe | NiCd | LiMn

  /** Capacity level. */
  datatype CapacityLevel = Unknown | Critical | Low | Normal | High | Full

  // ---------------------------------------------------------------------
  // The literal each variant is written as in sysfs.

  function TypeName(t: Type): string {
    match t
    case Unknown => "Unknown"
    case Battery => "Battery"
    case UPS => "UPS"
    case Mains => "Mains"
    case USB => "USB"
    case USB_DCP => "USB_DCP"
    case USB_CDP => "USB_CDP"
    case USB_ACA => "USB_ACA"
    case USB_C => "USB_C"
    case USB_PD => "USB_PD"
    case USB_PD_DRP => "USB_PD_DRP"
    case BrickID => "BrickID"
    case Wireless => "Wireless"
  }

  function StatusName(t: Status): string {
    match t
    case Unknown => "Unknown"
    case Charging => "Charging"
    case Discharging => "Discharging"
    case NotCharging => "Not charging"
    case Full => "Full"
  }

  function TechnologyName(t: Technology): string {
    match t
    case Unknown => "Unknown"
    case NiMH => "NiMH"
    case LiIon => "Li-ion"
    case LiPoly => "Li-poly"
    case LiFe => "LiFe"
    case NiCd => "NiCd"
    case LiMn => "LiMn"
  }

  function CapacityLevelName(t: CapacityLevel): string {
    match t
    case Unknown => "Unknown"
    case Critical => "Critical"
    case Low => "Low"
    case Normal => "Normal"
    case High => "High"
    case Full => "Full"
  }

  // ---------------------------------------------------------------------
  // The decoders: a recognised literal gives its variant, and only a
  // recognised literal gives anything other than `Unknown`.

  /** `Type::from`. */
  function TypeFrom(s: string): (r: Type)
    ensures r == Type.Unknown || TypeName(r) == s
    ensures forall t: Type :: TypeName(t) == s ==> r == t
  {
    match s
    case "Unknown" => Type.Unknown
    case "Battery" => Battery
    case "UPS" => UPS
    case "Mains" => Mains
    case "USB" => USB
    case "USB_DCP" => USB_DCP
    case "USB_CDP" => USB_CDP
    case "USB_ACA" => USB_ACA
    case "USB_C" => USB_C
    case "USB_PD" => USB_PD
    case "USB_PD_DRP" => USB_PD_DRP
    case "BrickID" => BrickID
    case "Wireless" => Wireless
    case _ => Type.Unknown
  }

  /** `Status::from`. */
  function StatusFrom(s: string): (r: Status)
    ensures r == Status.Unknown || StatusName(r) == s
    ensures forall t: Status :: StatusName(t) == s ==> r == t
  {
    match s
    case "Unknown" => Status.Unknown
    case "Charging" => Charging
    case "Discharging" => Discharging
    case "Not charging" => NotCharging
    case "Full" => Status.Full
    case _ => Status.Unknown
  }

  /** `Technology::from`. */
  function TechnologyFrom(s: string): (r: Technology)
    ensures r == Technology.Unknown || TechnologyName(r) == s
    ensures forall t: Technology :: TechnologyName(t) == s ==> r == t
  {
    match s
    case "Unknown" => Technology.Unknown
    case "NiMH" => NiMH
    case "Li-ion" => LiIon
    case "Li-poly" => LiPoly
    case "LiFe" => LiFe
    case "NiCd" => NiCd
    case "LiMn" => LiMn
    case _ => Technology.Unknown
  }

  /** `CapacityLevel::from`. */
  function CapacityLevelFrom(s: string): (r: CapacityLevel)
    ensures r == CapacityLevel.Unknown || CapacityLevelName(r) == s
    ensures forall t: CapacityLevel :: CapacityLevelName(t) == s ==> r == t
  {
    match s
    case "Unknown" => CapacityLevel.Unknown
    case "Critical" => Critical
    case "Low" => Low
    case "Normal" => Normal
    case "High" => High
    case "Full" => CapacityLevel.Full
    case _ => CapacityLevel.Unknown
  }

  // ---------------------------------------------------------------------
  // Properties.

  /** Each variant has its own literal, and decoding it gives the variant back. */
  lemma TypeRoundTrip(t: Type, u: Type)
    ensures TypeFrom(TypeName(t)) == t
    ensures TypeName(t) == TypeName(u) ==> t == u
  {
  }

  lemma StatusRoundTrip(t: Status, u: Status)
    ensures StatusFrom(StatusName(t)) == t
    ensures StatusName(t) == StatusName(u) ==> t == u
  {
  }

  lemma TechnologyRoundTrip(t: Technology, u: Technology)
    ensures TechnologyFrom(TechnologyName(t)) == t
    ensures TechnologyName(t) == TechnologyName(u) ==> t == u
  {
  }

  lemma CapacityLevelRoundTrip(t: CapacityLevel, u: CapacityLevel)
    ensures CapacityLevelFrom(CapacityLevelName(t)) == t
    ensures CapacityLevelName(t) == CapacityLevelName(u) ==> t == u
  {
  }

  /** A string that is no variant's literal decodes to `Unknown`, in all four decoders. */
  lemma UnrecognisedIsUnknown(s: string)
    ensures (forall t: Type :: TypeName(t) != s) ==> TypeFrom(s) == Type.Unknown
    ensures (forall t: Status :: StatusName(t) != s) ==> StatusFrom(s) == Status.Unknown
    ensures (forall t: Technology :: TechnologyName(t) != s) ==> TechnologyFrom(s) == Technology.Unknown
    ensures (forall t: CapacityLevel :: CapacityLevelName(t) != s) ==> CapacityLevelFrom(s) == CapacityLevel.Unknown
  {
  }

  /** Decoding is exact: case and surrounding blanks matter. */
  lemma StatusExamples()
    ensures StatusFrom("Charging") == Charging
    ensures StatusFrom("charging") == Status.Unknown
    ensures StatusFrom(" Charging") == Status.Unknown
    ensures StatusFrom("Not charging") == NotCharging
    ensures StatusFrom("NotCharging") == Status.Unknown
  {
  }

  /** The chemistry literals are hyphenated; the variant spellings are not recognised. */
  lemma TechnologyExamples()
    ensures TechnologyFrom("Li-ion") == LiIon && TechnologyFrom("Li-poly") == LiPoly
    ensures TechnologyFrom("LiIon") == Technology.Unknown
    ensures TechnologyFrom("LiPoly") == Technology.Unknown
  {
  }

  /** The literal "Unknown" is recognised by all four decoders, as `Unknown`. */
  lemma UnknownLiteral()
    ensures TypeFrom("Unknown") == Type.Unknown
    ensures StatusFrom("Unknown") == Status.Unknown
    ensures TechnologyFrom("Unknown") == Technology.Unknown
    ensures CapacityLevelFrom("Unknown") == CapacityLevel.Unknown
  {
  }
}
