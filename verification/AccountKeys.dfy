/** Account and transfer ids as TigerBeetle stores them: 128 bits, taken from a uuid's bytes or from a
    ledger's number. */
module AccountKeys {
  import opened LedgerModel

  type Byte = b: int | 0 <= b < 256

  /** The bytes' value, the first byte least. */
  function LittleEndian(bytes: seq<Byte>): nat {
    if bytes == [] then 0 else bytes[0] + 256 * LittleEndian(bytes[1..])
  }

  /** A random uuid: sixteen bytes, with the version in the seventh and the variant in the ninth. */
  predicate IsUuid4(bytes: seq<Byte>) {
    |bytes| == 16 && bytes[6] / 16 == 4 && bytes[8] / 64 == 2
  }

  function Power256(n: nat): (p: nat)
    ensures p > 0
  {
    if n == 0 then 1 else 256 * Power256(n - 1)
  }

  lemma {:induction false} LittleEndianIsInjective(a: seq<Byte>, b: seq<Byte>)
    requires |a| == |b|
    ensures LittleEndian(a) == LittleEndian(b) <==> a == b
  {
    if a != [] {
      LittleEndianIsInjective(a[1..], b[1..]);
      if LittleEndian(a) == LittleEndian(b) {
        assert a[0] == LittleEndian(a) % 256 && b[0] == LittleEndian(b) % 256;
        assert a == [a[0]] + a[1..] && b == [b[0]] + b[1..];
      }
    }
  }

  lemma {:induction false} LittleEndianBounds(bytes: seq<Byte>, k: nat)
    requires k < |bytes|
    ensures bytes[k] * Power256(k) <= LittleEndian(bytes)
  {
    if k > 0 {
      LittleEndianBounds(bytes[1..], k - 1);
      assert bytes[k] * Power256(k) == 256 * (bytes[1..][k - 1] * Power256(k - 1));
    }
  }

  /** An id as sixteen bytes: a uuid's own, or a ledger's number. */
  function KeyOf(id: AccountId, uuids: nat -> seq<Byte>): nat {
    match id
    case WalletAccount(wallet) => LittleEndian(uuids(wallet))
    case SettlementAccount(number) => number
  }

  /** A wallet's key comes from a random uuid, a settlement account's from a currency's ledger. */
  predicate WellKeyed(id: AccountId, uuids: nat -> seq<Byte>) {
    match id
    case WalletAccount(wallet) => IsUuid4(uuids(wallet))
    case SettlementAccount(number) => IsLedger(number)
  }

  lemma LedgersAreSmall(number: nat)
    requires IsLedger(number)
    ensures 1 <= number <= 11
  {
  }

  lemma UuidsAreLarge(bytes: seq<Byte>)
    requires IsUuid4(bytes)
    ensures LittleEndian(bytes) > 11
  {
    LittleEndianBounds(bytes, 6);
    assert bytes[6] >= 64;
    PowersGrow(6);
  }

  lemma {:induction false} PowersGrow(n: nat)
    ensures Power256(n) >= 1 && (n > 0 ==> Power256(n) >= 256)
  {
    if n > 0 {
      PowersGrow(n - 1);
    }
  }

  /** No two accounts share a 128-bit id: two wallets only if they share a uuid, two ledgers never, and a
      wallet never with a currency's settlement account. */
  lemma KeysAreDistinct(a: AccountId, b: AccountId, uuids: nat -> seq<Byte>)
    requires WellKeyed(a, uuids) && WellKeyed(b, uuids)
    requires a.WalletAccount? && b.WalletAccount? && uuids(a.wallet) == uuids(b.wallet) ==> a == b
    ensures KeyOf(a, uuids) == KeyOf(b, uuids) <==> a == b
  {
    hide LittleEndian, IsLedger;
    match (a, b)
    case (WalletAccount(v), WalletAccount(w)) => LittleEndianIsInjective(uuids(v), uuids(w));
    case (WalletAccount(v), SettlementAccount(n)) =>
      UuidsAreLarge(uuids(v));
      LedgersAreSmall(n);
    case (SettlementAccount(n), WalletAccount(w)) =>
      UuidsAreLarge(uuids(w));
      LedgersAreSmall(n);
    case _ =>
  }

  /** Who an account is kept for: a wallet, or a currency's outside money. */
  datatype Owner = OwnerWallet(wallet: nat) | OwnerCurrency(code: string)

  function AccountOf(o: Owner): AccountId
    requires o.OwnerCurrency? ==> o.code in CURRENCY_LEDGERS
  {
    match o
    case OwnerWallet(wallet) => WalletAccount(wallet)
    case OwnerCurrency(code) => SettlementAccount(CURRENCY_LEDGERS[code])
  }

  /** Different wallets with different uuids, and different supported currencies, have different 128-bit ids; no
      wallet has a currency's. */
  lemma OwnersHaveTheirOwnKeys(a: Owner, b: Owner, uuids: nat -> seq<Byte>)
    requires forall o :: o in [a, b] ==>
      if o.OwnerCurrency? then o.code in CURRENCY_LEDGERS else IsUuid4(uuids(o.wallet))
    requires a.OwnerWallet? && b.OwnerWallet? && uuids(a.wallet) == uuids(b.wallet) ==> a == b
    ensures KeyOf(AccountOf(a), uuids) == KeyOf(AccountOf(b), uuids) <==> a == b
  {
    hide LittleEndian;
    assert a in [a, b] && b in [a, b];
    KeysAreDistinct(AccountOf(a), AccountOf(b), uuids);
  }

  lemma {:induction false} LittleEndianFits(bytes: seq<Byte>, k: nat)
    requires k < |bytes| && bytes[k] < 255
    ensures LittleEndian(bytes) < Power256(|bytes|) - 1
  {
    LittleEndianBelow(bytes[1..]);
    if k > 0 {
      LittleEndianFits(bytes[1..], k - 1);
    }
  }

  lemma {:induction false} LittleEndianBelow(bytes: seq<Byte>)
    ensures LittleEndian(bytes) < Power256(|bytes|)
  {
    if bytes != [] {
      LittleEndianBelow(bytes[1..]);
    }
  }

  /** A uuid is a legal id: neither of the two TigerBeetle reserves, 0 and 2^128 - 1. */
  lemma UuidsAreLegal(bytes: seq<Byte>)
    requires IsUuid4(bytes)
    ensures 0 < LittleEndian(bytes) < Power256(16) - 1
  {
    UuidsAreLarge(bytes);
    LittleEndianFits(bytes, 8);
  }

  function NumberedUuid(n: nat): seq<Byte> {
    [n % 256, n / 256 % 256, 0, 0, 0, 0, 0x40, 0, 0x80, 0, 0, 0, 0, 0, 0, 0]
  }

  /** There are wallets to speak of: the first 65536 numbers have random uuids of their own. */
  lemma WalletsHaveKeys(v: nat, w: nat)
    requires v < 0x1_0000 && w < 0x1_0000
    ensures WellKeyed(WalletAccount(v), NumberedUuid) && WellKeyed(WalletAccount(w), NumberedUuid)
    ensures KeyOf(WalletAccount(v), NumberedUuid) == KeyOf(WalletAccount(w), NumberedUuid) <==> v == w
  {
    hide LittleEndian;
    if NumberedUuid(v) == NumberedUuid(w) {
      assert NumberedUuid(v)[0] == NumberedUuid(w)[0] && NumberedUuid(v)[1] == NumberedUuid(w)[1];
    }
    KeysAreDistinct(WalletAccount(v), WalletAccount(w), NumberedUuid);
  }
}
