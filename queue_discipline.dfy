/** The bottleneck queue: the MaxSize defaults written for both disciplines,
    and the check that picks the one to install on the router's bottleneck
    device. */
module QueueDiscipline {
  import opened Errors

  const PfifoFastName: string := "ns3::PfifoFastQueueDisc"
  const CoDelName: string := "ns3::CoDelQueueDisc"

  datatype QueueDiscKind = PfifoFast | CoDel

  /** A QueueSize: a count in one of ns-3's two units. */
  datatype QueueSize = Packets(count: nat) | Bytes(count: nat)

  /** The MaxSize default of each discipline, both written before either is
      installed; the installed one reads its own at installation. */
  datatype MaxSizeDefaults = MaxSizeDefaults(pfifoFast: QueueSize, coDel: QueueSize)

  function TypeName(kind: QueueDiscKind): string {
    match kind
    case PfifoFast => PfifoFastName
    case CoDel => CoDelName
  }

  /** Exactly two type names are accepted; anything else is fatal. */
  function ParseQueueDisc(name: string): (r: Result<QueueDiscKind>)
    ensures r.Ok? <==> name == PfifoFastName || name == CoDelName
    ensures r.Ok? ==> TypeName(r.value) == name
    ensures r.Err? ==> r.error == QueueNotRecognized(name)
  {
    if name == PfifoFastName then Ok(PfifoFast)
    else if name == CoDelName then Ok(CoDel)
    else Err(QueueNotRecognized(name))
  }

  /** Every discipline's own type name selects that discipline again. */
  lemma ParseTypeName(kind: QueueDiscKind)
    ensures ParseQueueDisc(TypeName(kind)) == Ok(kind)
  {
  }

  /** PfifoFast counts whole packets of mtu bytes, CoDel counts bytes. The
      packet count is computed (and so divides by mtu) whichever discipline
      is chosen later. */
  function MaxSizes(size: nat, mtu: nat): (r: Result<MaxSizeDefaults>)
    ensures r.Ok? <==> mtu > 0
    ensures r.Err? ==> r.error == DivisionByZero
    ensures r.Ok? ==> r.value.coDel == Bytes(size) && r.value.pfifoFast.Packets?
    ensures r.Ok? ==> r.value.pfifoFast.count * mtu <= size < (r.value.pfifoFast.count + 1) * mtu
  {
    if mtu == 0 then Err(DivisionByZero)
    else Ok(MaxSizeDefaults(Packets(size / mtu), Bytes(size)))
  }

  /** The size the installed discipline takes: its own default. */
  function InstalledMaxSize(kind: QueueDiscKind, defaults: MaxSizeDefaults): QueueSize {
    match kind
    case PfifoFast => defaults.pfifoFast
    case CoDel => defaults.coDel
  }

  /** The installed limit follows the discipline: for PfifoFast the number of
      whole mtu-byte packets that fit in size bytes, for CoDel size bytes. */
  lemma InstalledUnit(kind: QueueDiscKind, size: nat, mtu: nat)
    requires mtu > 0
    ensures var q := InstalledMaxSize(kind, MaxSizes(size, mtu).value);
            (kind == PfifoFast ==> q.Packets? && q.count * mtu <= size < (q.count + 1) * mtu)
            && (kind == CoDel ==> q == Bytes(size))
  {
  }

  /** The default MTU of 400 bytes and the default 22505-byte buffer. */
  lemma DefaultMaxSizes()
    ensures MaxSizes(22505, 400) == Ok(MaxSizeDefaults(Packets(56), Bytes(22505)))
  {
  }
}
