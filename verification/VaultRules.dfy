/** When an escrowed vault is delivered liquid and when it is locked again. */
module VaultRules {

  const MIN_VAULT_SIZE_MARIO: int := 100_000_000      // 100 ARIO
  const MIN_VAULT_LOCK_SECONDS: int := 14 * 86_400    // 14 days

  /** Deposit time: a lock below 14 days or an amount below 100 ARIO becomes a liquid escrow. */
  predicate FallsBackToLiquid(amountMario: int, remainingLockSeconds: int) {
    remainingLockSeconds < MIN_VAULT_LOCK_SECONDS || amountMario < MIN_VAULT_SIZE_MARIO
  }

  datatype Settlement = Liquid | Relock(lockSeconds: int) | LockTooLong

  /** Claim time: the settlement of a vault claim, decided again from the live clock. */
  function Settle(vaultEnd: int, amount: int, minDuration: int, maxDuration: int, now: int): Settlement {
    var remaining := vaultEnd - now;
    if remaining <= 0 then Liquid
    else if amount < MIN_VAULT_SIZE_MARIO then Liquid
    else if remaining < minDuration then Liquid
    else if remaining > maxDuration then LockTooLong
    else Relock(remaining)
  }
}
