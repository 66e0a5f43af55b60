/** The values every crate passes around: accounts, storage words, code, and
    the upstream chain at one block. */
module Chain {

  datatype Option<+T> = None | Some(value: T)

  // Addresses, slots, words and hashes are only stored and compared here,
  // never computed with, so plain naturals stand for all of them.
  type Address = nat
  type Slot = nat
  type Word = nat
  type Hash = nat

  const U64_MAX: nat := 0xffff_ffff_ffff_ffff

  /** The hash of no code at all. */
  const KECCAK_EMPTY: Hash := 0xc5d2460186f7233c927e7db2dcc703c0e500b653ca82273b7bfad8045d85a470

  datatype Bytecode = Bytecode(bytes: seq<nat>)

  datatype AccountInfo = AccountInfo(balance: Word, nonce: nat, codeHash: Hash, code: Option<Bytecode>)

  /** An account without the empty code it may carry inline: code that says
      nothing its hash does not. */
  function Trimmed(info: AccountInfo): AccountInfo {
    if info.code == Some(Bytecode([])) then info.(code := None) else info
  }

  /** The four header fields a block env built from an upstream header has set. */
  datatype BlockEnv = BlockEnv(number: nat, timestamp: nat, basefee: nat, gasLimit: nat)

  /** One piece of upstream state. */
  datatype StateKey = AccountKey(address: Address) | StorageKey(owner: Address, slot: Slot) | BlockHashKey(number: nat)

  datatype StateValue = AccountValue(info: Option<AccountInfo>) | WordValue(word: Word) | HashValue(hash: Hash)

  /** Real state at one block. An account that does not exist is `None`; code
      that cannot be looked up by hash is `None`. */
  datatype Upstream = Upstream(
    account: Address -> Option<AccountInfo>,
    storage: (Address, Slot) -> Word,
    blockHash: nat -> Hash,
    code: Hash -> Option<Bytecode>)
  {
    function Truth(key: StateKey): StateValue {
      match key
      case AccountKey(a) => AccountValue(account(a))
      case StorageKey(a, i) => WordValue(storage(a, i))
      case BlockHashKey(n) => HashValue(blockHash(n))
    }
  }
}
