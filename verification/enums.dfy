/** The five IntEnum classes of the printer script, each as a closed datatype
    with its numeric value, the partial constructor `Enum(value)` (which
    raises ValueError for an unlisted value) and its `__str__` rendering.

    Because constructing an IntEnum from an unlisted value raises, a member
    always holds a listed value, and the wildcard arm of each `__str__` is
    reached only by a listed member that has no case of its own: that
    happens for exactly one member, PaperColor.UNKNOWN. */
module Enums {
  import opened Wrappers

  /** An enum constructor's failure as the ValueError it raises. */
  function Member<T>(o: Option<T>, enumName: string, v: int): (r: Result<T>)
    ensures r.Ok? <==> o.Some?
    ensures r.Err? ==> r.error == NotEnumMember(enumName, v)
  {
    match o
    case Some(x) => Ok(x)
    case None => Err(NotEnumMember(enumName, v))
  }

  // ---------------------------------------------------------------------
  // PaperType
  // ---------------------------------------------------------------------

  datatype PaperType = Continuous | Gapped | Blackmark

  function PaperTypeValue(t: PaperType): nat
  {
    match t
    case Continuous => 0
    case Gapped => 1
    case Blackmark => 2
  }

  /** `PaperType(v)`. */
  function PaperTypeOf(v: int): (r: Option<PaperType>)
    ensures r.Some? <==> 0 <= v <= 2
    ensures r.Some? ==> PaperTypeValue(r.value) == v
  {
    if v == 0 then Some(Continuous)
    else if v == 1 then Some(Gapped)
    else if v == 2 then Some(Blackmark)
    else None
  }

  function PaperTypeName(t: PaperType): (s: string)
    ensures s != "Unknown"
  {
    match t
    case Gapped => "Gapped"
    case Continuous => "Continuous"
    case Blackmark => "Blackmark"
  }

  // ---------------------------------------------------------------------
  // PrinterReadinessStatus
  // ---------------------------------------------------------------------

  datatype ReadinessStatus = Ready | LidOpen | OutOfPaper | Busy

  function ReadinessValue(s: ReadinessStatus): nat
  {
    match s
    case Ready => 0
    case LidOpen => 1
    case OutOfPaper => 4
    case Busy => 32
  }

  /** `PrinterReadinessStatus(v)`. */
  function ReadinessOf(v: int): (r: Option<ReadinessStatus>)
    ensures r.Some? <==> v == 0 || v == 1 || v == 4 || v == 32
    ensures r.Some? ==> ReadinessValue(r.value) == v
  {
    if v == 0 then Some(Ready)
    else if v == 1 then Some(LidOpen)
    else if v == 4 then Some(OutOfPaper)
    else if v == 32 then Some(Busy)
    else None
  }

  function ReadinessName(s: ReadinessStatus): (r: string)
    ensures r != "Unknown"
  {
    match s
    case Ready => "Ready"
    case LidOpen => "Lid Open"
    case OutOfPaper => "Paper not loaded"
    case Busy => "Busy"
  }

  // ---------------------------------------------------------------------
  // PaperColor
  // ---------------------------------------------------------------------

  datatype PaperColor = Unknown | Transparent | White | Pink | Blue | Yellow

  function PaperColorValue(c: PaperColor): nat
  {
    match c
    case Unknown => 0
    case Transparent => 2
    case White => 3
    case Pink => 4
    case Blue => 5
    case Yellow => 6
  }

  /** `PaperColor(v)`: 1 and everything above 6 are not members. */
  function PaperColorOf(v: int): (r: Option<PaperColor>)
    ensures r.Some? <==> v == 0 || 2 <= v <= 6
    ensures r.Some? ==> PaperColorValue(r.value) == v
  {
    if v == 0 then Some(Unknown)
    else if v == 2 then Some(Transparent)
    else if v == 3 then Some(White)
    else if v == 4 then Some(Pink)
    else if v == 5 then Some(Blue)
    else if v == 6 then Some(Yellow)
    else None
  }

  /** UNKNOWN has no case of its own and falls to the wildcard arm. */
  function PaperColorName(c: PaperColor): (s: string)
    ensures s == "Unknown" <==> c == Unknown
  {
    match c
    case Transparent => "Transparent"
    case White => "White"
    case Pink => "Pink"
    case Blue => "Blue"
    case Yellow => "Yellow"
    case _ => "Unknown"
  }

  // ---------------------------------------------------------------------
  // TimeoutSetting
  // ---------------------------------------------------------------------

  datatype TimeoutSetting = Never | Minutes15 | Minutes30 | Minutes60

  function TimeoutValue(t: TimeoutSetting): nat
  {
    match t
    case Never => 0
    case Minutes15 => 1
    case Minutes30 => 2
    case Minutes60 => 3
  }

  /** `TimeoutSetting(v)`. */
  function TimeoutOf(v: int): (r: Option<TimeoutSetting>)
    ensures r.Some? <==> 0 <= v <= 3
    ensures r.Some? ==> TimeoutValue(r.value) == v
  {
    if v == 0 then Some(Never)
    else if v == 1 then Some(Minutes15)
    else if v == 2 then Some(Minutes30)
    else if v == 3 then Some(Minutes60)
    else None
  }

  /** The idle time each setting stands for, as its name says. */
  function TimeoutMinutes(t: TimeoutSetting): nat
  {
    match t
    case Never => 0
    case Minutes15 => 15
    case Minutes30 => 30
    case Minutes60 => 60
  }

  function TimeoutName(t: TimeoutSetting): (s: string)
    ensures s != "Unknown"
  {
    match t
    case Never => "Never"
    case Minutes15 => "15 minutes"
    case Minutes30 => "30 minutes"
    case Minutes60 => "60 minutes"
  }

  // ---------------------------------------------------------------------
  // BeepSetting
  // ---------------------------------------------------------------------

  datatype BeepSetting = Off | On

  function BeepValue(b: BeepSetting): nat
  {
    match b
    case Off => 0
    case On => 1
  }

  /** `BeepSetting(v)`. */
  function BeepOf(v: int): (r: Option<BeepSetting>)
    ensures r.Some? <==> 0 <= v <= 1
    ensures r.Some? ==> BeepValue(r.value) == v
  {
    if v == 0 then Some(Off)
    else if v == 1 then Some(On)
    else None
  }

  /** `BeepSetting(flag)` for a Python bool, which is the int 0 or 1: never
      raises. */
  function BeepOfBool(flag: bool): (b: BeepSetting)
    ensures BeepOf(if flag then 1 else 0) == Some(b)
    ensures b == On <==> flag
  {
    if flag then On else Off
  }

  function BeepName(b: BeepSetting): (s: string)
    ensures s != "Unknown"
  {
    match b
    case On => "On"
    case Off => "Off"
  }

  // ---------------------------------------------------------------------
  // Every value survives a trip through its number, and names tell
  // members apart.
  // ---------------------------------------------------------------------

  lemma ValuesRoundTrip()
    ensures forall t :: PaperTypeOf(PaperTypeValue(t)) == Some(t)
    ensures forall s :: ReadinessOf(ReadinessValue(s)) == Some(s)
    ensures forall c :: PaperColorOf(PaperColorValue(c)) == Some(c)
    ensures forall t :: TimeoutOf(TimeoutValue(t)) == Some(t)
    ensures forall b :: BeepOf(BeepValue(b)) == Some(b)
  {
  }

  lemma NamesDistinct()
    ensures forall t, u :: PaperTypeName(t) == PaperTypeName(u) ==> t == u
    ensures forall s, u :: ReadinessName(s) == ReadinessName(u) ==> s == u
    ensures forall c, u :: PaperColorName(c) == PaperColorName(u) ==> c == u
    ensures forall t, u :: TimeoutName(t) == TimeoutName(u) ==> t == u
    ensures forall b, u :: BeepName(b) == BeepName(u) ==> b == u
  {
  }
}
