/** The ifIndex encoding of a physical slot and PON port, the OIDs built from it,
    and the trap decoder that reads it back. */
module Oids {
  import opened Text

  const BASE_OID_1 := ".1.3.6.1.4.1.3902.1082"
  const ONU_ID_NAME_PREFIX := ".500.10.2.3.3.1.2"
  const ONU_TYPE_PREFIX := ".3.50.11.2.1.17"
  const ONU_SERIAL_NUMBER_PREFIX := ".500.10.2.3.3.1.18"
  const ONU_RX_POWER_PREFIX := ".500.20.2.2.2.1.10"
  const ONU_TX_POWER_PREFIX := ".3.50.12.1.1.14"
  const ONU_STATUS_PREFIX := ".500.10.2.3.8.1.4"
  const ONU_IP_ADDRESS_PREFIX := ".3.50.16.1.1.10"
  const ONU_DESCRIPTION_PREFIX := ".500.10.2.3.3.1.3"
  const ONU_LAST_ONLINE_PREFIX := ".500.10.2.3.8.1.5"
  const ONU_LAST_OFFLINE_PREFIX := ".500.10.2.3.8.1.6"
  const ONU_LAST_OFFLINE_REASON_PREFIX := ".500.10.2.3.8.1.7"
  const ONU_OPTICAL_DISTANCE_PREFIX := ".500.10.2.3.10.1.2"

  // The column whose trap variables carry the index, as the trap listener spells it.
  const OID_ONU_NAME := ".1.3.6.1.4.1.3902.1082.500.10.2.3.3.1.2"

  const ONU_ID_IF_INDEX_BASE: int := 285278208
  const ONU_ID_SLOT_STRIDE: int := 256
  const ONU_TYPE_IF_INDEX_BASE: int := 268435456
  const ONU_TYPE_SLOT_STRIDE: int := 65536
  const ONU_ID_INCREMENT: int := 1
  const ONU_TYPE_INCREMENT: int := 256
  const MAX_BOARD_ID: int := 30
  const MAX_PON_ID: int := 16

  datatype BoardPonConfig = BoardPonConfig(
    nameOid: string, typeOid: string, serialOid: string, rxPowerOid: string, txPowerOid: string,
    statusOid: string, ipAddressOid: string, descriptionOid: string, lastOnlineOid: string,
    lastOfflineOid: string, lastOfflineReasonOid: string, opticalDistanceOid: string)

  predicate ValidSlot(slot: int) {
    1 <= slot <= MAX_BOARD_ID
  }

  predicate ValidPon(pon: int) {
    1 <= pon <= MAX_PON_ID
  }

  function OnuIdIndex(slot: int, pon: int): int {
    ONU_ID_IF_INDEX_BASE + slot * ONU_ID_SLOT_STRIDE + pon * ONU_ID_INCREMENT
  }

  function OnuTypeIndex(slot: int, pon: int): int {
    ONU_TYPE_IF_INDEX_BASE + slot * ONU_TYPE_SLOT_STRIDE + pon * ONU_TYPE_INCREMENT
  }

  function Dotted(prefix: string, n: int): string {
    prefix + "." + Itoa(n)
  }

  function GenerateBoardPonOID(slot: int, pon: int): Option<BoardPonConfig> {
    GenerateWith(Dotted, slot, pon)
  }

  /** The port's OIDs, given how a column and an index are written. */
  function GenerateWith(dotted: (string, int) -> string, slot: int, pon: int): Option<BoardPonConfig> {
    if !ValidSlot(slot) || !ValidPon(pon) then None
    else
      var id := OnuIdIndex(slot, pon);
      var ty := OnuTypeIndex(slot, pon);
      Some(BoardPonConfig(
        dotted(ONU_ID_NAME_PREFIX, id), dotted(ONU_TYPE_PREFIX, ty), dotted(ONU_SERIAL_NUMBER_PREFIX, id),
        dotted(ONU_RX_POWER_PREFIX, id), dotted(ONU_TX_POWER_PREFIX, ty), dotted(ONU_STATUS_PREFIX, id),
        dotted(ONU_IP_ADDRESS_PREFIX, ty), dotted(ONU_DESCRIPTION_PREFIX, id), dotted(ONU_LAST_ONLINE_PREFIX, id),
        dotted(ONU_LAST_OFFLINE_PREFIX, id), dotted(ONU_LAST_OFFLINE_REASON_PREFIX, id),
        dotted(ONU_OPTICAL_DISTANCE_PREFIX, id)))
  }

  // ----- the trap decoder

  datatype OnuIndex = OnuIndex(board: int, pon: int, onuId: int)

  /** Two's complement wrap-around of a 64-bit integer. */
  function Wrap64(n: int): int {
    var m := n % 0x1_0000_0000_0000_0000;
    if m > MAX_INT64 then m - 0x1_0000_0000_0000_0000 else m
  }

  /** Division and remainder that truncate toward zero. */
  function Quot(n: int, d: int): int
    requires d > 0
  {
    if n >= 0 then n / d else -(-n / d)
  }

  function Rem(n: int, d: int): int
    requires d > 0
  {
    n - Quot(n, d) * d
  }

  function AtoiOr(s: string, default: int): int {
    match Atoi(s)
    case Some(n) => n
    case None => default
  }

  /** Slot and PON of an encoded ifIndex, if it is one of a GPON port. */
  function DecodeIfIndex(encoded: int): Option<(int, int)> {
    var n := Wrap64(encoded - ONU_ID_IF_INDEX_BASE);
    var slot := Quot(n, ONU_ID_SLOT_STRIDE);
    var pon := Rem(n, ONU_ID_SLOT_STRIDE);
    if n < 1 || slot < 1 || slot > MAX_BOARD_ID || pon < 1 || pon > MAX_PON_ID then None
    else Some((slot, pon))
  }

  /** Exactly the generated indexes decode, each to its own slot and PON. */
  lemma DecodeIfIndexExact(encoded: int, slot: int, pon: int)
    requires IsInt64(encoded)
    ensures DecodeIfIndex(encoded) == Some((slot, pon))
      <==> ValidSlot(slot) && ValidPon(pon) && encoded == OnuIdIndex(slot, pon)
  {
    var n := Wrap64(encoded - ONU_ID_IF_INDEX_BASE);
    WrapSmall(encoded - ONU_ID_IF_INDEX_BASE);
    if encoded == OnuIdIndex(slot, pon) && ValidSlot(slot) && ValidPon(pon) {
      assert n == slot * 256 + pon;
      assert n / 256 == slot;
    }
  }

  /** Subtracting the base wraps around only for numbers far below it, and then far above the ports. */
  lemma WrapSmall(n: int)
    requires MIN_INT64 - ONU_ID_IF_INDEX_BASE <= n <= MAX_INT64
    ensures Wrap64(n) == n || Wrap64(n) > 0x1_0000_0000
  {
    if n >= 0 {
      assert n % 0x1_0000_0000_0000_0000 == n;
    } else {
      assert (n + 0x1_0000_0000_0000_0000) % 0x1_0000_0000_0000_0000 == n % 0x1_0000_0000_0000_0000;
    }
  }

  /** Reads slot, PON and ONU id from the OID of a trap variable. Board 0 means "not decodable". */
  function ParseOnuIndex(fullOid: string, prefix: string): OnuIndex {
    var suffix := TrimPrefix(TrimPrefix(fullOid, prefix), ".");
    var parts := Split(suffix, '.');
    match Atoi(parts[0])
    case None => OnuIndex(0, 0, 0)
    case Some(encoded) =>
      match DecodeIfIndex(encoded)
      case None => OnuIndex(0, 0, AtoiOr(parts[|parts| - 1], 0))
      case Some((slot, pon)) => OnuIndex(slot, pon, if |parts| >= 2 then AtoiOr(parts[1], 0) else 0)
  }

  /** The OID an OLT reports for one ONU of a column: the column's OID, the ifIndex, the ONU id. */
  function OnuOid(column: string, slot: int, pon: int, onuId: int): string {
    Dotted(Dotted(column, OnuIdIndex(slot, pon)), onuId)
  }

  lemma StripColumn(column: string, a: string, b: string)
    requires Free(a, '.') && Free(b, '.')
    ensures Split(TrimPrefix(TrimPrefix(column + "." + a + "." + b, column), "."), '.') == [a, b]
  {
    var suffix := a + ['.'] + b;
    assert column + "." + a + "." + b == column + ("." + suffix);
    TrimOwnPrefix(column, "." + suffix);
    TrimOwnPrefix(".", suffix);
    SplitFirst(a, b, '.');
    SplitFree(b, '.');
  }

  /** Decoding what OID generation wrote gives back slot, PON and ONU id. */
  lemma DecodeUndoesEncode(column: string, slot: int, pon: int, onuId: int)
    requires ValidSlot(slot) && ValidPon(pon) && 0 <= onuId <= MAX_INT64
    ensures ParseOnuIndex(OnuOid(column, slot, pon, onuId), column) == OnuIndex(slot, pon, onuId)
  {
    var id := OnuIdIndex(slot, pon);
    ItoaHasNo(id, '.');
    ItoaHasNo(onuId, '.');
    StripColumn(column, Itoa(id), Itoa(onuId));
    ParseOfItoa(id);
    ParseOfItoa(onuId);
    DecodeIfIndexExact(id, slot, pon);
  }

  /** The generated name column, prefixed with the base OID, is the column the trap decoder strips. */
  lemma TrapColumnIsGenerated(slot: int, pon: int, onuId: int)
    requires ValidSlot(slot) && ValidPon(pon) && 0 <= onuId <= MAX_INT64
    ensures ParseOnuIndex(Dotted(BASE_OID_1 + GenerateBoardPonOID(slot, pon).value.nameOid, onuId),
                          OID_ONU_NAME) == OnuIndex(slot, pon, onuId)
  {
    NameColumn(Itoa(OnuIdIndex(slot, pon)));
    DecodeUndoesEncode(OID_ONU_NAME, slot, pon, onuId);
  }

  lemma NameColumn(rest: string)
    ensures BASE_OID_1 + (ONU_ID_NAME_PREFIX + "." + rest) == OID_ONU_NAME + "." + rest
  {
    assert OID_ONU_NAME == BASE_OID_1 + ONU_ID_NAME_PREFIX;
  }

  function IndexText(fullOid: string, prefix: string): string {
    Split(TrimPrefix(TrimPrefix(fullOid, prefix), "."), '.')[0]
  }

  /** Whatever text is decoded: it yields a board exactly when its index component is the decimal
      form of a generated ifIndex, and then that board and PON re-encode to the number that was read. */
  lemma DecodableExactly(fullOid: string, prefix: string, slot: int, pon: int)
    requires slot >= 1
    ensures (ParseOnuIndex(fullOid, prefix).board == slot && ParseOnuIndex(fullOid, prefix).pon == pon)
      <==> ValidSlot(slot) && ValidPon(pon) && Atoi(IndexText(fullOid, prefix)) == Some(OnuIdIndex(slot, pon))
  {
    match Atoi(IndexText(fullOid, prefix))
    case None =>
    case Some(encoded) => DecodeIfIndexExact(encoded, slot, pon);
  }

  /** Different (slot, PON) pairs get different OIDs in both index spaces. */
  lemma GeneratedOidsDiffer(slot: int, pon: int, slot': int, pon': int)
    requires GenerateBoardPonOID(slot, pon).Some? && GenerateBoardPonOID(slot', pon').Some?
    requires || GenerateBoardPonOID(slot, pon).value.nameOid == GenerateBoardPonOID(slot', pon').value.nameOid
             || GenerateBoardPonOID(slot, pon).value.typeOid == GenerateBoardPonOID(slot', pon').value.typeOid
    ensures slot == slot' && pon == pon'
  {
    var a, b := GenerateBoardPonOID(slot, pon).value, GenerateBoardPonOID(slot', pon').value;
    if a.nameOid == b.nameOid {
      DottedInjective(ONU_ID_NAME_PREFIX, OnuIdIndex(slot, pon), OnuIdIndex(slot', pon'));
    } else {
      DottedInjective(ONU_TYPE_PREFIX, OnuTypeIndex(slot, pon), OnuTypeIndex(slot', pon'));
    }
  }

  lemma DottedInjective(prefix: string, n: int, m: int)
    requires Dotted(prefix, n) == Dotted(prefix, m)
    ensures n == m
  {
    assert Itoa(n) == Dotted(prefix, n)[|prefix| + 1..];
    assert Itoa(m) == Dotted(prefix, m)[|prefix| + 1..];
    ItoaInjective(n, m);
  }

  // ----- the generated columns

  lemma KnownIndexes()
    ensures OnuIdIndex(1, 1) == 285278465 && OnuTypeIndex(1, 1) == 268501248
    ensures OnuIdIndex(2, 1) == 285278721 && OnuTypeIndex(2, 1) == 268566784
    ensures OnuIdIndex(3, 1) == 285278977 && OnuTypeIndex(3, 1) == 268632320
  {
  }

  /** Every column of a port, however a column and an index are written: those of the ONU-id index space end in
      0x11010000 + slot*0x100 + pon, those of the type space in 0x10000000 + slot*0x10000 + pon*0x100. */
  lemma GeneratedColumns(dotted: (string, int) -> string, slot: int, pon: int)
    requires 1 <= slot <= 30 && 1 <= pon <= 16
    ensures GenerateWith(dotted, slot, pon).Some?
    ensures var c, id := GenerateWith(dotted, slot, pon).value, 0x11010000 + slot * 0x100 + pon;
      && c.nameOid == dotted(ONU_ID_NAME_PREFIX, id) && c.serialOid == dotted(ONU_SERIAL_NUMBER_PREFIX, id)
      && c.rxPowerOid == dotted(ONU_RX_POWER_PREFIX, id) && c.statusOid == dotted(ONU_STATUS_PREFIX, id)
      && c.descriptionOid == dotted(ONU_DESCRIPTION_PREFIX, id)
      && c.lastOnlineOid == dotted(ONU_LAST_ONLINE_PREFIX, id) && c.lastOfflineOid == dotted(ONU_LAST_OFFLINE_PREFIX, id)
      && c.lastOfflineReasonOid == dotted(ONU_LAST_OFFLINE_REASON_PREFIX, id)
      && c.opticalDistanceOid == dotted(ONU_OPTICAL_DISTANCE_PREFIX, id)
    ensures var c, ty := GenerateWith(dotted, slot, pon).value, 0x10000000 + slot * 0x10000 + pon * 0x100;
      && c.typeOid == dotted(ONU_TYPE_PREFIX, ty) && c.txPowerOid == dotted(ONU_TX_POWER_PREFIX, ty)
      && c.ipAddressOid == dotted(ONU_IP_ADDRESS_PREFIX, ty)
  {
  }

  /** Outside the chassis there is no port. */
  lemma NoOtherPorts(slot: int, pon: int)
    ensures GenerateBoardPonOID(slot, pon).Some? <==> 1 <= slot <= 30 && 1 <= pon <= 16
  {
  }

  /** A column's OID for an index: the column, a dot, and the index in decimal. */
  lemma DottedIs(prefix: string, n: int)
    ensures |Dotted(prefix, n)| == |prefix| + 1 + |Itoa(n)| && prefix <= Dotted(prefix, n)
    ensures Dotted(prefix, n)[|prefix|] == '.' && Dotted(prefix, n)[|prefix| + 1..] == Itoa(n)
  {
  }
}
