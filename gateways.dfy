/**
 * The outside services the deal flow talks to, as the deal helpers use them:
 * the TON blockchain (`checkReceived`, `releaseFundsToOwner`) and Telegram
 * (`sendText`, `getMessages`). Reads from them are function parameters that
 * return structured results; the payouts the backend requests are appended to
 * a ledger.
 */
module Gateways {
  import opened Wrappers

  /** The result of `checkReceived`: whether the transfer is on chain, and its hash. */
  datatype Receipt = Receipt(received: bool, hash: Option<string>)

  /** `checkReceived(toAddress, fromAddress, nanoTon)`; it may throw. */
  type ChainCheck = (string, string, int) -> Outcome<Receipt>

  /** `sendText(chatId, text)`: the sent message's id, `None` for no message; it may throw. */
  type SendText = (int, string) -> Outcome<Option<int>>

  /** `getMessages(chatId, [messageId])`: whether the message is there; it may throw. */
  type FetchMessage = (int, int) -> Outcome<bool>

  /** `toNano` for a whole amount of TON: a whole number of nanotons that `fromNano` turns back into `ton`. */
  function ToNano(ton: int): (nano: int)
    ensures nano % 1_000_000_000 == 0 && nano / 1_000_000_000 == ton
  {
    ton * 1_000_000_000
  }

  /** One call of `releaseFundsToOwner(privateKey, publicKey, recipient, amount)`. */
  datatype Transfer = Transfer(privateKey: string, publicKey: string, recipient: string, amount: int)

  /** Every payout the backend has asked the escrow wallets to make, in order. */
  class Ledger {
    var transfers: seq<Transfer>

    constructor ()
      ensures transfers == []
    {
      transfers := [];
    }

    method Release(privateKey: string, publicKey: string, recipient: string, amount: int)
      modifies this`transfers
      ensures transfers == old(transfers) + [Transfer(privateKey, publicKey, recipient, amount)]
    {
      transfers := transfers + [Transfer(privateKey, publicKey, recipient, amount)];
    }
  }
}
