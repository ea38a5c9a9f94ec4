# Raiden payment channels, write-ahead log and event synchronization in Dafny

This project models the core of the Raiden node library and proves what holds
over all of its runs.

* **Payment channel.** `ChannelState` holds the records and the pure questions,
  `ChannelTransitions` says on values what each operation does, and
  `NettingChannel` has the two ends and the channel as objects that are updated
  in place, each method proved against those rules. `LockInvariant` and
  `ChannelRuns` tie pending list, lock indexes and stored balance proof
  together; `ChannelLifecycle`, `ChannelSolvency`, `ChannelWithdraws`,
  `ChannelSanity`, `ChannelChecks` and `ChannelIdempotence` prove the laws of
  whole runs; `ChannelMessages` says exactly which messages are sent and taken,
  `ChannelDuties` when a node closes, updates and settles, `ChannelSecrets` which
  secrets claim a lock, `CoopSettlement` and `ChannelFunds` what stands behind a
  cooperative settlement and the on-chain amounts, and `ChannelWitnesses` has runs that break what one might expect;
  `TwoNodes` joins two nodes by first-in first-out queues, `TransferPayments`
  follows a payment through them, and `WithdrawHandshake` has the exchanges of
  withdraw messages. `LockCodec` is the
  byte form of a lock.
* **Write-ahead log.** `LogReplay` has batches, snapshots, restarts and replay
  on values, `WriteAheadLog` the objects, with the state as an object of its own
  so that cloning, writing in place and returning another object differ.
* **Event synchronization.** `EventFilters` and `EventQueries` say what a node
  asks for and in which order it hands events on, `EventBatches` what consecutive
  batches find, `EventRepeats` what is found twice, `BatchFetching` how block
  ranges are chosen, `BlockchainEvents` fetches a batch, `ChainFollowing` has the
  loop that commits batches and the restart from the node's own state, and
  `FollowerRuns` the laws of its runs.
* **Smaller pieces.** `LockReclassification` after settlement and
  `DependencyOrder` of requirement files.

The hash functions are uninterpreted constants, a signature is the address it
recovers to, identifiers of log rows are increasing numbers, and what the
Ethereum node answers, how fast, and which request times out are inputs. An
operation that raises is `Raised` on values and `Fails` on objects.

Some intended properties are false of the code as it stands, and the exact
conditions are proved: withdraws are compared with the balance and not with what
is free (`ChannelSolvency.RunIsSolventIff`), only encodings and not secrethashes
are checked for duplicates (`ChannelRuns.RunKeepsLocksIff`), an empty cooperative
settlement breaks the order of pending withdraws
(`ChannelWithdraws.RunKeepsOrderIff`), the sanity check can fail after accepted
steps (`ChannelSanity.RunIsSaneIff`), and not every state change is idempotent
(`ChannelIdempotence.RunIsIdempotentIff`). Which secrets a node learns of depends
on where its batches are cut (`EventBatches.CutsDoNotMatterIff`) and on its
restarts (`FollowerRuns.CrashesDoNotMatterIff`), and after a timeout an event can
be processed twice (`FollowerRuns.ProcessedOnceIff`). For the log, replay applies
the boundary change of a snapshot twice (`LogReplay.RestoreIsFoldIff`) and the
clone, not the returned object, is installed (`LogReplay.BatchInstallsFoldIff`).
The documentation of `restore_or_init_snapshot` calls the identifier it returns the
first change that is not applied; in the code it is the last one that is, and
the model follows the code.

`dafny verify dfyconfig.toml` checks the whole project.

## Model

| member | source | states |
|---|---|---|
| `LockCodec.DecodeEncode` | raiden_common/messages/transfers.py:114-151 | Decoding the bytes of any valid lock gives the lock back. |
| `LockCodec.EncodeDecode` | raiden_common/messages/transfers.py:132-151 | Every 96-byte string is the encoding of the lock it decodes to. |
| `LockCodec.Decode` | raiden_common/messages/transfers.py:145-151 | Decoding succeeds exactly for 96 bytes; any other length fails the secrethash check. |
| `LockCodec.EncodedFields` | raiden_common/messages/transfers.py:114-151 | The bytes are the expiration and the amount, as numbers of 32 bytes, and the secrethash, in this order. |
| `LockCodec.MostSignificantFirst` | raiden_common/messages/transfers.py:114-151 | The first byte of a number is its most significant one. |
| `LockCodec.JoinInjective` | raiden_common/transfer/channel.py:1423-1427 | The bytes hashed into the locksroot determine the ordered pending lock list. |
| `LockInvariant.ListedLockIsIndexed` | raiden_common/transfer/channel.py:2863-2880 | An encoding in the pending list belongs to the one lock indexed under its secrethash. |
| `LockInvariant.CurrentIsAmountLocked` | raiden_common/transfer/channel.py:1222-1236 | The locked amount of the current balance proof is the sum over the three indexes, also when there is no proof. |
| `LockInvariant.AddLockKeepsIff` | raiden_common/transfer/channel.py:1399-1408 | Registering a locked transfer keeps indexes, list and stored proof in agreement exactly when the secrethash is new to that end. |
| `LockInvariant.RemoveLockKeeps` | raiden_common/transfer/channel.py:1344-1355 | Taking a lock out of list, indexes and proof keeps them in agreement. |
| `LockInvariant.ExpireLockKeepsIff` | raiden_common/transfer/channel.py:1336-1341 | Dropping an expired lock keeps the agreement exactly when it was not claimed on-chain. |
| `LockInvariant.RegisterSecretKeeps` | raiden_common/transfer/channel.py:1861-1870 | Registering a secret off-chain moves one lock between indexes and keeps amounts, list and every lookup. |
| `LockInvariant.RegisterOnchainKeepsIff` | raiden_common/transfer/channel.py:1873-1903 | Registering a secret on-chain keeps the agreement of indexes, list and proof exactly when the lock is deleted from its old index or nothing is claimed; which secrets claim is the row of `ChannelSecrets.OnchainSecretClaimsIff`. |
| `ChannelRuns.StepKeepsLocksIff` | raiden_common/transfer/channel.py:1582-1648 | One step of any operation keeps the lock invariant of both ends exactly when it adds a new secrethash, expires no claimed lock and uses the default deletion. |
| `ChannelRuns.RunKeepsLocksIff` | raiden_common/transfer/channel.py:2794-2880 | All states of a run have disjoint indexes, a duplicate-free list of exactly the indexed locks, the stored locked amount equal to their sum and the stored locksroot equal to the hash of the list, exactly when every step uses the locks properly. |
| `ChannelRuns.OtherActionsQuiet` | raiden_common/transfer/channel.py:1955-2349 | Every operation that adds or removes no lock leaves the lock books, the identity and the addresses alone and lowers no nonce. |
| `ChannelLifecycle.StatusNeverDrops` | raiden_common/transfer/channel.py:1303-1377 | In every run the status rank opened, closing, closed, settling, settled never decreases and no state becomes unusable. |
| `ChannelLifecycle.SettleSentOnce` | raiden_common/transfer/channel.py:2513-2552 | The settle transaction is sent at most once in a run, by a block strictly after the close block plus the settle timeout. |
| `ChannelLifecycle.UpdateSentOnce` | raiden_common/transfer/channel.py:2555-2594 | The update-transfer transaction is sent at most once in a run; when it is sent is the row of `ChannelDuties.UpdateSentIff`. |
| `ChannelLifecycle.FrozenAfterOpened` | raiden_common/transfer/channel.py:541-593 | Once a channel has left the opened state, no balance proof and no pending list of either end changes again. |
| `ChannelLifecycle.StoredProofIsNewest` | raiden_common/transfer/channel.py:565-593 | The stored partner proof is one that was accepted and no accepted proof has a higher nonce. |
| `ChannelLifecycle.OnchainProofIsNewest` | raiden_common/transfer/channel.py:1651-1673 | The proof in a close or update-transfer transaction is signed by the partner and is the highest-nonce proof ever accepted in the run, before or after. |
| `ChannelLifecycle.RemovedOnlyWhenUnlocked` | raiden_common/transfer/channel.py:2761-2791 | A batch unlock removes the channel only in the settled state and only if every on-chain locksroot seen non-empty has been unlocked since. |
| `ChannelLifecycle.BatchUnlockRemovesIff` | raiden_common/transfer/channel.py:2762-2791 | A batch unlock removes the channel exactly when it is settled and no locksroot but the sender's is left. |
| `ChannelSolvency.WithdrawSolventIff` | raiden_common/transfer/channel.py:2020-2049 | Our own withdraw request leaves the locks covered exactly when it fits the balance before withdraws minus the locked amount. |
| `ChannelSolvency.WithdrawRequestSolventIff` | raiden_common/transfer/channel.py:2113-2219 | The same for a withdraw request of the partner, on every path including cooperative settlement. |
| `ChannelSolvency.ChainWithdrawSolventIff` | raiden_common/transfer/channel.py:2731-2758 | The same for a total withdraw that is seen on-chain. |
| `ChannelSolvency.StepKeepsSolventIff` | raiden_common/transfer/channel.py:1160-1259 | A step that uses locks properly keeps balance >= locked amount >= 0 at both ends exactly when its withdraw fits. |
| `ChannelSolvency.ProperRunKeepsInvariant` | raiden_common/transfer/channel.py:2794-2880 | Every state of a proper run has the lock invariant and covers its locks. |
| `ChannelSolvency.RunIsSolventIff` | raiden_common/transfer/channel.py:937-1028 | Over a whole run: all states cover their locks exactly when every withdraw fits what is not locked. |
| `ChannelWithdraws.LoopExpiresPrefix` | raiden_common/transfer/channel.py:1806-1858 | The expiry loop removes exactly the expired prefix of the pending withdraws, with consecutive nonces. |
| `ChannelWithdraws.LoopExpiresAllIff` | raiden_common/transfer/channel.py:1813-1824 | Breaking at the first live withdraw misses no expired one exactly when no live withdraw stands before an expired one. |
| `ChannelWithdraws.StepKeepsOrderIff` | raiden_common/transfer/channel.py:2800-2811 | Any step keeps our pending totals positive and strictly increasing exactly when a coop-settle, if it enters one, enters a positive total that is pending already or the largest. |
| `ChannelWithdraws.FundedInOrderIff` | raiden_common/transfer/channel.py:1211-1219 | While no balance is negative, that condition says that the coop-settle takes out something. |
| `ChannelWithdraws.RunKeepsOrderIff` | raiden_common/transfer/channel.py:2800-2811 | Over any run: the totals are in order in all states exactly when every coop-settle enters its total in order. |
| `ChannelWithdraws.RunKeepsOrder` | raiden_common/transfer/channel.py:2800-2811 | In every run without a coop-settle the totals are in order. |
| `ChannelWithdraws.BlockExpiresExactlyTheExpired` | raiden_common/transfer/channel.py:163-210 | In runs without cooperative settlement, with clock and reveal timeout never going back, a block expires every withdraw past the sender threshold and no other. |
| `ChannelWithdraws.ReceiverAcceptsExpiries` | raiden_common/transfer/channel.py:1100-1135 | A mirrored receiver at most five blocks behind accepts each expiry message and ends with the list of the sender. |
| `ChannelWithdraws.StepCoopSettleSplits` | raiden_common/transfer/channel.py:1972-2017 | From any channel without a negative balance, a cooperative settlement record created by a step splits exactly the deposits known then into two non-negative totals. |
| `ChannelWithdraws.CoopSettlesSplitDeposits` | raiden_common/transfer/channel.py:2146-2206 | In every run that has no negative balance each record, ours or the partner's, was created by one step as such a split of the deposits known in the state before it, and has been there with that split ever since, whether or not the locks were covered. |
| `ChannelSolvency.TransferredNeverDecreases` | raiden_common/transfer/channel.py:860-934 | What either end has transferred never decreases, in any run. |
| `ChannelSolvency.UnlockKeepsTotal` | raiden_common/transfer/channel.py:1513-1579 | An unlock, sent or received, keeps transferred plus locked amount of both ends. |
| `ChannelSanity.ShapedSaneIff` | raiden_common/transfer/channel.py:2794-2880 | For a channel whose lists have no duplicates, whose locks are under their secrethash and whose proofs commit to their lists, `sanity_check` passes exactly when every indexed lock is listed, no balance is negative and our totals are in order unless a coop-settle is recorded. |
| `ChannelSanity.StepKeepsSaneIff` | raiden_common/transfer/channel.py:2794-2880 | After a step from such a channel that passes the check, it passes again exactly when no lock claimed on-chain is expired, an unlock and an on-chain withdraw fit the balance, and no coop-settle record is cleared while our totals are out of order; the lists keep their shape in any case. |
| `ChannelSanity.RunIsSaneIff` | raiden_common/transfer/channel.py:2794-2880 | Over a whole run: the assertions hold in all states exactly when every step meets that condition. |
| `ChannelChecks.LockStepKeepsShape` | raiden_common/transfer/channel.py:1582-1648 | Every operation on locks, none of which is followed by the check, keeps the shape of the lists and the order of our totals. |
| `ChannelChecks.CoveredIff` | raiden_common/transfer/channel.py:2813-2820 | From any channel, also one with a negative balance, a state change leaves no balance negative exactly when what stays withdrawn is covered at both ends. |
| `ChannelChecks.CheckPassesIff` | raiden_common/transfer/channel.py:2883-2904 | Whatever was done to the locks since the last check, the check after the next state change passes exactly when every indexed lock is listed, what stays withdrawn is covered, and a coop-settle record is cleared only while our totals are in order. |
| `ChannelChecks.RunPassesChecksIff` | raiden_common/transfer/channel.py:2883-2904 | Over a whole run in which only the state changes that go through `state_transition` are checked: all checks pass exactly when each of them meets that condition. |
| `ChannelWitnesses.NewChannelInv` | raiden_common/transfer/state.py:318-378 | A new channel satisfies all invariants and passes the check. |
| `ChannelWitnesses.WithdrawCanUncoverLocks` | raiden_common/transfer/channel.py:955-957 | A withdraw of the whole deposit is accepted although all of it is locked, since only the balance is compared. |
| `ChannelWitnesses.UnlockOverdraws` | raiden_common/transfer/channel.py:2813-2820 | Lock the deposit, withdraw it, unlock: every step is accepted, the balance becomes negative and the check fails only after the last one. |
| `ChannelWitnesses.OverdrawSurfacesLater` | raiden_common/transfer/channel.py:2883-2904 | No check follows the unlock; the negative balance fails the check of the next state change. |
| `ChannelWitnesses.ReusedSecrethashBreaksIndexes` | raiden_common/transfer/channel.py:1403-1408 | A second transfer under a used secrethash is sent and leaves a listed lock that no index holds. |
| `ChannelWitnesses.EmptyCoopSettleBreaksOrder` | raiden_common/transfer/channel.py:2182-2206 | Accepting a cooperative settlement with nothing to take out stores a total of zero. |
| `ChannelWitnesses.ClearedRecordFailsCheck` | raiden_common/transfer/channel.py:2800-2811 | When the partner then lets it expire, the record is gone, the zero is not, and the check fails. |
| `ChannelIdempotence.StepIsIdempotentIff` | raiden_common/transfer/architecture.py:58-63 | A state change that was applied can be applied again without effect exactly when it is not a sent transfer, not a sent unlock and not a valid coop-settle of the user that takes out nothing. |
| `ChannelIdempotence.RunIsIdempotentIff` | raiden_common/transfer/architecture.py:58-63 | The same anywhere in any run. |
| `ChannelIdempotence.EmptyCoopSettleRepeats` | raiden_common/transfer/channel.py:1972-2017 | A coop-settle with nothing to take out is sent anew each time and uses up a nonce each time. |
| `WithdrawHandshake.WithdrawCompletes` | raiden_common/transfer/channel.py:937-1097 | A withdraw that the asking node finds valid is taken by the partner, its confirmation is taken in turn, the on-chain withdraw is sent exactly while there is time, and afterwards the two nodes agree again. |
| `WithdrawHandshake.RequestConfirmed` | raiden_common/transfer/channel.py:987-1028 | A mirrored partner takes every request that is valid for its sender and confirms it with its next nonce. |
| `WithdrawHandshake.ConfirmationTaken` | raiden_common/transfer/channel.py:1031-1097 | The asking node takes that confirmation. |
| `WithdrawHandshake.ConfirmationTakenIff` | raiden_common/transfer/channel.py:1031-1097 | If the user asks for further withdraws before the confirmation arrives, it is still taken exactly when none of them was valid. |
| `WithdrawHandshake.PartnerRequestAnswered` | raiden_common/transfer/channel.py:2162-2181 | The initiator of a cooperative settlement takes the request of the partner once and rejects its duplicate without any change. |
| `WithdrawHandshake.SettlementCompletes` | raiden_common/transfer/channel.py:1972-2284 | A valid cooperative settlement runs to its end between two nodes that agree, although the request is sent twice, pays out exactly the two deposits, and leaves the nodes in agreement. |
| `TwoNodes.SendTransferFits` | raiden_common/transfer/channel.py:1430-1510 | A locked transfer that is sent has the next nonce and fits what the receiver will know, within deposit, list limit and UINT256. |
| `TwoNodes.UsableTransferIsCreated` | raiden_common/transfer/channel.py:249-304 | When the channel is usable for an amount and the lock is new, building the transfer succeeds exactly while a 64-bit nonce is left; which channels are usable is the row of `TransferPayments.UsableIff`. |
| `TwoNodes.UsableTransferIsAccepted` | raiden_common/transfer/channel.py:249-304 | What the sender checks is enough for the receiver: a transfer sent on a usable channel is taken by a node that knows the sender's state, no smaller deposit and no larger withdraws, whatever withdraws are pending. |
| `TwoNodes.ReceiveTransferAccepted` | raiden_common/transfer/channel.py:720-809 | The mirrored receiver accepts a fitting locked transfer, also after its own transferred amount has grown. |
| `TwoNodes.ReceiveUnlockAccepted` | raiden_common/transfer/channel.py:860-934 | The mirrored receiver accepts a fitting unlock and takes over the state of the sender. |
| `TwoNodes.ReceiveExpiredAccepted` | raiden_common/transfer/channel.py:612-717 | The mirrored receiver accepts a fitting lock expiry that is due. |
| `TwoNodes.EarlyExpiryRejected` | raiden_common/transfer/channel.py:651-690 | An expiry before the receiver threshold, or of a lock claimed on-chain, is rejected. |
| `TwoNodes.QueuesReconcile` | raiden_common/transfer/channel.py:1582-1648 | In every reachable state of two nodes with queues, also while either closes, settles or expires, applying the messages in flight to what the receiver knows gives exactly nonce, transferred amount, locked amount, pending list and locks of the sender, both ways. |
| `TwoNodes.IdleNodesAgree` | raiden_common/transfer/channel.py:1160-1208 | With nothing in flight both nodes compute the same two balances, which add up to the capacity. |
| `TwoNodes.MessagesAreAccepted` | raiden_common/transfer/channel.py:2395-2510 | In every reachable state an opened receiver accepts the oldest message in flight, an expiry exactly when it is due; a receiver that is not opened takes nothing. |
| `ChannelDuties.UpdateSentIff` | raiden_common/transfer/channel.py:2555-2594 | In any run from a new channel, an update-transfer is sent exactly when somebody else closed the channel while it was opened or closing, a proof of the partner was accepted before and no update was seen; the step then sends the newest accepted proof, valid until close block plus settle timeout, and nothing else. |
| `ChannelDuties.CloseSentIff` | raiden_common/transfer/channel.py:1651-1673 | A close is sent exactly when the user asks for it while the channel is opened or closing, with the newest accepted proof of the partner or none. |
| `ChannelDuties.ForeignCloseRaises` | raiden_common/transfer/channel.py:1955-1969 | A request to close another channel raises. |
| `ChannelDuties.ForeignClose` | raiden_common/transfer/channel.py:2555-2594 | The close of another channel changes nothing. |
| `ChannelDuties.SettleSentIff` | raiden_common/transfer/channel.py:2513-2552 | Once the close in some block was seen, a later block sends the settle transaction exactly when it is past that block plus the settle timeout and the settlement was neither sent nor seen since. |
| `ChannelDuties.SettlementSeen` | raiden_common/transfer/channel.py:2615-2689 | A settlement that is seen removes the channel exactly when neither locksroot holds locks; otherwise the locksroots are kept and the unlock is asked for. |
| `ChannelDuties.FirstSettlementStays` | raiden_common/transfer/channel.py:1369-1377 | In any run the block in which the settlement is first seen is recorded and kept. |
| `ChannelDuties.ForeignSettlement` | raiden_common/transfer/channel.py:2615-2689 | The settlement of another channel changes nothing. |
| `ChannelDuties.OtherBatchUnlock` | raiden_common/transfer/channel.py:2761-2791 | Before the settlement, or for somebody else, a batch unlock changes nothing. |
| `ChannelSecrets.OnchainSecretClaimsIff` | raiden_common/transfer/channel.py:1873-1903 | A secret registered on-chain claims an open lock exactly when it was registered no later than the lock expires; the lock is then on-chain with that secret and in no other index, and a late secret leaves the book as it is. |
| `ChannelSecrets.UnknownSecretIgnored` | raiden_common/transfer/channel.py:1861-1903 | A secret for no open lock changes nothing, on-chain or off-chain. |
| `ChannelSecrets.OffchainSecretUnlocks` | raiden_common/transfer/channel.py:1861-1870 | A secret learned off-chain makes a locked lock claimable with it and changes nothing else. |
| `ChannelSecrets.SecretsReachBothEnds` | raiden_common/transfer/channel.py:1906-1941 | Both ends learn of a secret and nothing else changes. |
| `ChannelSecrets.TimelySecretKeepsLock` | raiden_common/transfer/channel.py:1873-1903 | Over any run, a lock whose secret was registered on-chain in time is dropped by no expiry: at either end it stays claimed until it is unlocked, and an expiry message for it is turned down. |
| `ChannelMessages.TransferTakenIff` | raiden_common/transfer/channel.py:720-809 | A locked transfer is taken exactly when the channel is opened, the lock is not listed, fewer than 160 are, the balance covers the locks and the new one, and the balance proof is the one that comes next; otherwise nothing changes. |
| `ChannelMessages.TakenTransferIsStored` | raiden_common/transfer/channel.py:2436-2476 | A taken transfer stores proof, nonce, pending list and lock. |
| `ChannelMessages.UnmatchedIsNotTaken` | raiden_common/transfer/channel.py:835-857 | A refund that does not match is never taken. |
| `ChannelMessages.UnlockTakenIff` | raiden_common/transfer/channel.py:860-934 | An unlock is taken exactly when the channel is opened, the lock of the secret is known, and the proof comes next with its amount moved from locked to transferred. |
| `ChannelMessages.TakenUnlockIsStored` | raiden_common/transfer/channel.py:2479-2510 | A taken unlock stores the proof and takes out the lock. |
| `ChannelMessages.LockExpiryTakenIff` | raiden_common/transfer/channel.py:612-717 | A lock expiry is taken exactly when the channel is opened, the lock is known and not claimed on-chain, five blocks have passed since its expiration, and the proof comes next without its amount. |
| `ChannelMessages.TakenExpiryIsStored` | raiden_common/transfer/channel.py:2395-2433 | A taken expiry stores the proof and takes out the lock. |
| `ChannelMessages.TransferSentIff` | raiden_common/transfer/channel.py:1430-1510 | A transfer is sent exactly when the channel is opened, the balance covers it, its lock is not listed and the next proof fits its fields; the sent proof is the next one and otherwise the call raises. |
| `ChannelMessages.UnlockSentIff` | raiden_common/transfer/channel.py:1513-1579 | An unlock is sent exactly when the channel is opened and the lock is pending, and claimed on-chain or not expired. |
| `ChannelMessages.LockExpirySentIff` | raiden_common/transfer/channel.py:1721-1803 | An expiry is sent exactly for a listed lock of an opened channel. |
| `ChannelMessages.RequestStoredIff` | raiden_common/transfer/channel.py:987-1028 | A withdraw request of the partner is stored exactly when it is properly signed, has the next nonce, is for more than was asked for and no more than there is; any other leaves the channel as it is. |
| `ChannelMessages.PlainRequestConfirmed` | raiden_common/transfer/channel.py:2113-2219 | Outside a cooperative settlement it is answered by exactly one confirmation with our next nonce. |
| `ChannelMessages.ConfirmationTaken` | raiden_common/transfer/channel.py:1031-1097 | A confirmation is taken exactly when it is properly signed, has the next nonce and confirms our largest total with its expiration; the withdraw transaction follows exactly while there is time. |
| `ChannelMessages.WithdrawExpiryTakenIff` | raiden_common/transfer/channel.py:1100-1135 | The expiry of a withdraw of the partner is taken exactly when the withdraw is pending and five blocks past its expiration. |
| `ChannelMessages.TakenWithdrawExpiry` | raiden_common/transfer/channel.py:2288-2349 | It takes out that withdraw and clears a coop-settle record with it. |
| `ChannelMessages.WithdrawAskedIff` | raiden_common/transfer/channel.py:2020-2049 | A withdraw of the user is asked of the partner exactly when the channel is opened and the total is more than was asked for and no more than there is. |
| `ChannelMessages.CoopSettleAskedIff` | raiden_common/transfer/channel.py:1972-2017 | A cooperative settlement is started exactly in an opened channel without locks and pending withdraws on either side. |
| `ChannelMessages.RevealTimeoutTakenIff` | raiden_common/transfer/channel.py:2052-2079 | A new reveal timeout is taken exactly from seven blocks up to half the settle timeout. |
| `ChannelMessages.BlockExpires` | raiden_common/transfer/channel.py:1806-1858 | A block of an opened channel expires the withdraws up to the first that is not ten blocks past its expiration, and the coop-settle record exactly with its withdraw. |
| `CoopSettlement.RequestSigns` | raiden_common/transfer/channel.py:2113-2219 | The partner's request for everything it has left signs our record, is confirmed, and completes the settlement exactly when the confirmation is there and it is not too late. |
| `CoopSettlement.ConfirmationSigns` | raiden_common/transfer/channel.py:2222-2284 | The partner's confirmation signs our record and completes the settlement exactly when the request is there and it is not too late. |
| `CoopSettlement.WrongRequest` | raiden_common/transfer/channel.py:2162-2181 | A request that does not answer our coop-settle changes nothing of our end. |
| `CoopSettlement.PartnerCoopSettle` | raiden_common/transfer/channel.py:2182-2206 | A coop-settle of the partner is accepted exactly without locks on either side and for all that the partner has. |
| `CoopSettlement.SignaturesWereReceived` | raiden_common/transfer/channel.py:2082-2110 | In any run, each signature of our record stands for a message of the partner that was taken while the record had these totals. |
| `CoopSettlement.SettlementIsSigned` | raiden_common/transfer/channel.py:2082-2110 | In any run, a coop-settle transaction is sent only after the partner's request for its total and its confirmation of ours were both taken, with exactly these totals. |
| `ChannelFunds.DepositIsLargest` | raiden_common/transfer/channel.py:2712-2728 | In any run the deposit of an end is the largest of the first one and those seen. |
| `ChannelFunds.WithdrawIsLast` | raiden_common/transfer/channel.py:2731-2758 | In any run the on-chain withdraw of an end is the last one seen. |
| `ChannelFunds.SeenWithdrawIsNotPending` | raiden_common/transfer/channel.py:2731-2758 | A withdraw that is seen is no longer pending; nothing else is dropped. |
| `TransferPayments.UsableIff` | raiden_common/transfer/channel.py:249-304 | A channel is usable for a transfer exactly when it is opened, the settle timeout is at least twice the reveal timeout, fewer than 160 locks are pending, the balance covers the pending locks and the new one, the next proof fits 256 bits and a given lock timeout is within bounds. |
| `TransferPayments.TransferIsTaken` | raiden_common/transfer/channel.py:1582-1618 | From any state of two nodes with nothing on its way, a transfer with a new lock and a 64-bit nonce left, for which the channel is usable, is sent and taken, and both nodes end with the same new lock. |
| `TransferPayments.UnlockIsTaken` | raiden_common/transfer/channel.py:1621-1648 | A lock that is not expired, or claimed on-chain, is unlocked at both nodes. |
| `TransferPayments.ExpiryIsTakenBack` | raiden_common/transfer/channel.py:1773-1803 | A lock that nobody claimed is taken back at both nodes from five blocks after its expiration. |
| `TransferPayments.PaymentCompletes` | raiden_common/transfer/channel.py:1582-1648 | A payment for which the channel is usable goes through: transfer and unlock move exactly the amount from one node to the other, in the books of both, and leave no lock. |
| `TransferPayments.PaymentIsTakenBack` | raiden_common/transfer/channel.py:1773-1803 | A payment whose secret does not come is taken back: nothing has moved and no lock is left. |
| `TransferPayments.OrdinaryPayment` | raiden_common/settings.py:55-56 | With the default timeouts of 500 and 50 blocks and a deposit of 100, a first payment of 10 goes through and leaves 90. |
| `TransferPayments.OrdinaryTransferIsRun` | raiden_common/transfer/channel.py:249-304 | These states are reachable: the steps are a run of the two nodes. |
| `NettingChannel.EachListed` | raiden_common/transfer/channel.py:2863-2880 | Looking at the locks of a dictionary one by one finds whether all of them are listed. |
| `NettingChannel.Total` | raiden_common/transfer/channel.py:1138-1157 | Adding up a dictionary entry by entry, in any order, gives its sum. |
| `NettingChannel.NettingChannelEnd.AmountOfLocks` | raiden_common/transfer/channel.py:1147-1157 | The locked amount is the sum over the three indexes. |
| `NettingChannel.NettingChannelEnd.LargestWithdraw` | raiden_common/transfer/state.py:366-372 | The off-chain total is the largest pending withdraw. |
| `NettingChannel.NettingChannel.EventsForExpiredWithdraws` | raiden_common/transfer/channel.py:1806-1858 | The loop over a copy of the pending withdraws computes the expiry rule. |
| `NettingChannel.NettingChannel.PassesSanityCheck` | raiden_common/transfer/channel.py:2794-2880 | The loops and comparisons of the check decide whether its assertions hold; nothing is changed. |
| `NettingChannel.NettingChannel.Handle` | raiden_common/transfer/channel.py:1944-1952 | Every state change moves the object exactly as its rule of the step relation says, raising where it raises, so the run theorems hold of the object; each handler is proved against its rule. |
| `NettingChannel.NettingChannel.StateTransition` | raiden_common/transfer/channel.py:2883-2904 | An operation on locks is not checked. Any other state change fails exactly when the handler raises or the sanity check on the channel that is left does; for a channel in shape this is told by a condition on the channel before the call. |
| `LogReplay.BatchInstallsFoldIff` | raiden_common/storage/wal.py:251-271 | A batch installs the fold of its changes, for every state and batch, exactly when a transition that returns another object leaves the same final value in the one it was given. |
| `LogReplay.FailedBatchChangesNothing` | raiden_common/storage/sqlite.py:878-890 | A batch that fails changes neither tables nor memory; only identifiers are used up. |
| `LogReplay.CommittedKeeps` | raiden_common/storage/wal.py:219-250 | A committed batch appends its changes with the events of the fold and keeps memory equal to the fold. |
| `LogReplay.ReplayIsFold` | raiden_common/storage/wal.py:107-127 | Replay from any usable snapshot gives the plain fold if the boundary change is idempotent there. |
| `LogReplay.RestoreIsFoldIff` | raiden_common/storage/wal.py:78-104 | Restoring up to each logged change gives the plain fold exactly when the boundary change of every snapshot is idempotent there. |
| `LogReplay.RestartKeeps` | raiden_common/raiden_service.py:660-701 | A safe restart finds the state it lost. |
| `LogReplay.MemoryIsFoldOfLog` | raiden_common/storage/wal.py:203-284 | After any sequence of committed and failed batches, snapshots, crashes and safe restarts, memory is the fold of the log and the logged events are those of the fold. |
| `LogReplay.IdempotentLogRestores` | raiden_common/transfer/architecture.py:58-63 | With idempotent changes, as the design asks, every restore in every run is the plain fold. |
| `LogReplay.LogIsWhatWasCommitted` | raiden_common/storage/wal.py:203-271 | After any run the log holds exactly the changes of the committed batches, in order: none is lost and none is there twice. |
| `LogReplay.SnapshotStoredIff` | raiden_common/storage/wal.py:273-284 | In any run a snapshot is stored exactly when a change was committed since the last start; it holds the state in memory under the identifier of the last logged change. |
| `LogReplay.IdentifiersAreCounted` | raiden_common/storage/sqlite.py:226-236 | In any run no identifier is given twice: each change that went through takes the next one, also if its batch is rolled back. |
| `LogReplay.RestartKeepsTables` | raiden_common/storage/wal.py:44-75 | A start stores at most the first snapshot and keeps rows and identifiers. |
| `WriteAheadLog.CallTransition` | raiden_common/storage/wal.py:164-177 | The transition writes its argument and returns that object or a new one. |
| `WriteAheadLog.Storage.Rollback` | raiden_common/storage/sqlite.py:878-890 | A rollback takes the rows back to the begin of the transaction. |
| `WriteAheadLog.Storage.WriteStateChange` | raiden_common/storage/sqlite.py:226-236 | A row gets the next identifier. |
| `WriteAheadLog.Storage.GetSnapshotBefore` | raiden_common/storage/sqlite.py:452-496 | Finds the newest snapshot that is not past the target. |
| `WriteAheadLog.Storage.GetStateChangesByRange` | raiden_common/storage/sqlite.py:640-660 | Finds the rows of the range, both ends included. |
| `WriteAheadLog.ReplayStateChanges` | raiden_common/storage/wal.py:107-127 | The replay loop computes the fold over the range. |
| `WriteAheadLog.Restore` | raiden_common/storage/wal.py:78-104 | Restores from the newest snapshot not past the target, or reports that there is none. |
| `WriteAheadLog.WriteAheadLog.ProcessAtomically` | raiden_common/storage/wal.py:202-271 | Works on a clone, writes rows in a transaction and installs the clone on commit; the old state object is never written and a failure leaves it in place. |
| `WriteAheadLog.WriteAheadLog.WriteStateSnapshot` | raiden_common/storage/wal.py:273-284 | Stores the state under the last saved change; fails before the first one. |
| `WriteAheadLog.StartNode` | raiden_common/storage/wal.py:44-75 | A start loads the newest snapshot, or stores the initial state as the first one, and replays the rest. |
| `EventFilters.UnionSelects` | raiden_common/blockchain/filters.py:268-301 | A union asks for exactly what either filter asks for, and for secrets exactly when one of the filters names their registry and one does not ignore them. |
| `EventFilters.NewFiltersWatch` | raiden_common/blockchain/events.py:228-245 | The new filter watches a channel exactly when an opening of it is among the events. |
| `EventFilters.AtMostThreeRounds` | raiden_common/blockchain/events.py:496-581 | A round that still has something to ask for is one of the first three. |
| `EventFilters.SecretsInFirstRound` | raiden_common/blockchain/events.py:450-581 | Only the first round of a batch finds secrets, with the filter it starts with. |
| `EventFilters.BatchFindsWanted` | raiden_common/blockchain/events.py:450-581 | A batch finds exactly the registry, network and own channel events of its blocks that follow from the start by creation events, whatever the filter gathered before, and the secrets exactly when the filter it starts with does not ignore them. |
| `EventFilters.GrownTracks` | raiden_common/blockchain/events.py:522-529 | A batch cut short by a timeout after any round leaves a filter that is still right. |
| `EventFilters.BatchTracks` | raiden_common/blockchain/events.py:571-577 | A whole batch leaves a filter that is right up to its last block. |
| `EventBatches.RoundsIgnore` | raiden_common/blockchain/events.py:228-245 | After any number of rounds, cut short or not, the node ignores secrets exactly if it did before and no round saw a channel of its own. |
| `EventBatches.BatchIgnores` | raiden_common/blockchain/events.py:228-245 | After a whole batch it ignores them exactly if it did before and none of its channels is opened in those blocks. |
| `EventBatches.BatchesFindWanted` | raiden_common/blockchain/events.py:450-581 | Consecutive batches find the closure under creation events, and exactly the secrets that come after a batch by whose end a channel of the node is open, or all of them if they are not ignored at first. |
| `EventBatches.CutsDoNotMatterIff` | raiden_common/blockchain/events.py:384-391 | Any two ways of cutting a range into batches find the event alike, exactly unless it is a secret that is ignored at first and comes in a later block than some channel of the node. |
| `EventBatches.SecretCanBeMissed` | raiden_common/blockchain/events.py:228-245 | A channel in block 1 and a secret in block 2: one batch misses the secret, two find it. |
| `EventQueries.ToWeb3Filters` | raiden_common/blockchain/filters.py:141-250 | The list holds the fixed queries and one query for each network with channels. |
| `EventQueries.QueriesSelect` | raiden_common/blockchain/filters.py:141-250 | The queries together ask for exactly what the filter selects. |
| `EventQueries.QueriesMatchOnce` | raiden_common/blockchain/filters.py:141-250 | No event matches two of the queries, except for a channel of a node with itself. |
| `EventQueries.GatherKeepsRank` | raiden_common/blockchain/events.py:500-556 | Query order puts registry before network before channel events. |
| `EventQueries.SortSorts` | raiden_common/blockchain/events.py:248-249 | Sorting by block gives a sorted permutation. |
| `EventQueries.SortBefore` | raiden_common/blockchain/events.py:248-249 | Sorting is stable: a creator that is not in a later block stays before its dependents. |
| `BlockchainEvents.NewFiltersFromEvents` | raiden_common/blockchain/events.py:228-245 | The loop over the events builds the filter of what they create. |
| `BlockchainEvents.CreatorsComeFirst` | raiden_common/blockchain/events.py:483-581 | Every creation stands before all events of what it created. |
| `BlockchainEvents.BatchNeedNotBeSorted` | raiden_common/blockchain/events.py:483-581 | The result of a batch is not always sorted by block: a chain and a filter for which block 3 comes before block 2. |
| `BlockchainEvents.ResultIsOnceIff` | raiden_common/blockchain/events.py:483-581 | The result of a batch lists no event twice exactly when the filter it starts with asks for no event of a network or channel whose creation the batch finds. |
| `EventRepeats.RoundsApartIff` | raiden_common/blockchain/events.py:496-581 | The same for the rounds: no event is found in two of them. |
| `EventRepeats.NothingAheadNothingTwice` | raiden_common/blockchain/events.py:496-581 | A filter that holds nothing created after the last fetched block meets this condition. |
| `EventRepeats.RetryRepeats` | raiden_common/blockchain/events.py:522-529 | A batch that times out after its first round leaves a filter that does not: the retry finds a deposit of the new channel twice. |
| `BlockchainEvents.BlockchainEvents.constructor` | raiden_common/blockchain/events.py:252-296 | A new object knows the contract of every event its filter can return. |
| `BlockchainEvents.BlockchainEvents.QueryRound` | raiden_common/blockchain/events.py:500-556 | One round returns what the filter selects, with every contract known. |
| `BlockchainEvents.BlockchainEvents.Track` | raiden_common/blockchain/events.py:544-579 | Adds the filters that follow from a round. |
| `BlockchainEvents.BlockchainEvents.QueryAndTrack` | raiden_common/blockchain/events.py:450-581 | Ends within three rounds; on success it returns the events of all rounds, creators first, and none twice exactly under that condition; on a timeout the filter keeps the finished rounds. |
| `BlockchainEvents.BlockchainEvents.AdjustSize` | raiden_common/blockchain/events.py:420-437 | A fast answer never fails and doubles the unclamped size exactly when more than one batch is left and the size is below the maximum; a medium one keeps the size; a slow one halves it, and fails exactly at the minimum. |
| `BlockchainEvents.BlockchainEvents.FetchLogsInBatch` | raiden_common/blockchain/events.py:299-448 | Moves exactly as the fetching rules say, whose sizes and ranges `BatchFetching.FastAnswer`, `MediumAnswer`, `SlowAnswer` and `PolledRange` give, and returns the events of its range. |
| `ChainFollowing.CommitKeepsResumable` | raiden_common/raiden_service.py:238-258 | The filter built from the node's own state after a batch is right up to the last block of the batch: openings are processed after the creation of their network, and removed channels have no events left. |
| `ChainFollowing.KnownIff` | raiden_common/raiden_service.py:1161-1220 | After a batch the state knows a channel exactly if it knew it before, or an event opened it in a known network, and no later event removed it. |
| `ChainFollowing.RegistryKnownIff` | raiden_common/raiden_service.py:1161-1220 | After a batch the state knows exactly the registries it knew and those that created a network new to it. |
| `ChainFollowing.FiltersAskForState` | raiden_common/raiden_service.py:238-258 | The filters built from the state name exactly its registries and networks, watch exactly its channels, and ignore secrets exactly when it has no channel. |
| `ChainFollowing.FollowStepKeeps` | raiden_common/raiden_service.py:1161-1220 | A committed batch, a batch cut short and a restart keep the filter and the state right and, secrets apart, the processed events exactly the wanted ones. |
| `FollowerRuns.StepListens` | raiden_common/raiden_service.py:238-258 | A step makes the node listen to secrets exactly when it comes across a channel of its own, in a batch, in the rounds before a timeout or in the state it restarts from; only a restart without channels ends this. |
| `FollowerRuns.StepSecrets` | raiden_common/raiden_service.py:1161-1220 | Secrets are processed with a committed batch, exactly while the node listens when it starts. |
| `FollowerRuns.SecretsProcessedIff` | raiden_common/raiden_service.py:769-786 | In any run with timeouts and crashes: exactly the secrets of blocks whose batch started while the node listened. |
| `FollowerRuns.CrashesDoNotMatterIff` | raiden_common/raiden_service.py:769-786 | However often the node crashes and resumes with the filters of its state, it has processed the same events as a node that fetched the blocks in any batches without a crash, exactly except for the secrets that one of them listened to and the other did not. |
| `FollowerRuns.ProcessedOnceIff` | raiden_common/raiden_service.py:1161-1220 | In any run no event has been processed twice exactly when no committed batch started with a filter that was ahead of what it created. |
| `FollowerRuns.ProcessedOnce` | raiden_common/raiden_service.py:1161-1220 | With any crashes but no timeout, on a chain that creates each network and channel once, every event is processed once. |
| `ChainFollowing.ChainFollower.constructor` | raiden_common/raiden_service.py:765-786 | A node that starts from a state asks for what follows from it, on any chain. |
| `ChainFollowing.ChainFollower.Restart` | raiden_common/raiden_service.py:765-786 | A restart goes on from block, events and state of the log, with the filters of the state. |
| `ChainFollowing.ChainFollower.Commit` | raiden_common/raiden_service.py:1161-1220 | Processes the events of a batch one by one, in order, and sets the block. |
| `ChainFollowing.ChainFollower.FollowBatch` | raiden_common/raiden_service.py:1154-1160 | One pass is one step of the runs above. |
| `ChainFollowing.ChainFollower.Synchronize` | raiden_common/raiden_service.py:1108-1255 | The loop terminates under any pattern of replies and is a path of such steps, so that the run laws say which events it processes and how often; the synced block passes neither its start nor the head. |
| `BatchFetching.HalvedIsQuotient` | raiden_common/blockchain/utils.py:77-89 | Halving step by step is the integer part of the quotient by a power of two. |
| `BatchFetching.BlockBatchSizeAdjuster.Size` | raiden_common/blockchain/utils.py:77-89 | The batch size stays between minimum and maximum. |
| `BatchFetching.IncreaseDoubles` | raiden_common/blockchain/utils.py:77-89 | One step up doubles the unclamped size, up to the one block that an earlier halving rounded off. |
| `BatchFetching.BlockBatchSizeAdjuster.Increase` | raiden_common/blockchain/utils.py:50-59 | Below the maximum the unclamped size doubles, up to rounding, and the size does not shrink; at the maximum nothing changes. |
| `BatchFetching.BlockBatchSizeAdjuster.Decrease` | raiden_common/blockchain/utils.py:61-75 | Halves the unclamped size, and fails exactly at the minimum. |
| `BatchFetching.DecreaseShrinks` | raiden_common/blockchain/utils.py:61-75 | An allowed decrease makes the unclamped size strictly smaller. |
| `BatchFetching.DecreaseHalves` | raiden_common/blockchain/utils.py:61-75 | One step down halves the unclamped size. |
| `BatchFetching.SizeIsClamped` | raiden_common/blockchain/utils.py:77-89 | The size is the unclamped one within the bounds and else the bound that it passes; at first it is the initial size. |
| `BatchFetching.FastAnswer` | raiden_common/blockchain/events.py:420-437 | A fast answer never fails, never shrinks the size, and doubles the unclamped size exactly when more than one batch is left and the size is below the maximum. |
| `BatchFetching.MediumAnswer` | raiden_common/blockchain/events.py:420-437 | A medium answer keeps the size. |
| `BatchFetching.SlowAnswer` | raiden_common/blockchain/events.py:401-437 | A slow answer and a timeout halve the unclamped size, or fail, exactly at the minimum. |
| `BatchFetching.PolledRange` | raiden_common/blockchain/events.py:381-391 | A batch starts after the last fetched block and has as many further blocks as the size, or all that are left. |
| `BatchFetching.PastTargetRefused` | raiden_common/blockchain/events.py:326-330 | A target that has been fetched already is refused, and no other. |
| `BatchFetching.FetchMakesProgress` | raiden_common/blockchain/events.py:326-448 | Every call raises, or moves the last block up to at most the target, or keeps it with a smaller size. |
| `BatchFetching.ChainedPartitions` | raiden_common/blockchain/events.py:381-391 | Chained ranges cover each block of the stretch exactly once and no other block. |
| `BatchFetching.CommittedOnce` | raiden_common/raiden_service.py:769-786 | With crashes at any point the committed batches split the processed blocks, and the synced block never passes the largest head. |
| `LockReclassification.UpdateLockInfo` | raiden_common/raiden_event_handler.py:118-159 | Updates the restored end in place as the reclassification rule says and changes nothing else. |
| `LockReclassification.ReclassifiedKeys` | raiden_common/raiden_event_handler.py:131-159 | Nothing is left unlocked, no lock is in two indexes, and the keys are exactly those on-chain then or now, and the open ones with a task. |
| `LockReclassification.GainsAddUp` | raiden_common/raiden_event_handler.py:722-770 | The two gains and the dropped locks add up to what was locked: no token counts twice. |
| `LockReclassification.GainsAreLocked` | raiden_common/raiden_event_handler.py:722-770 | For either end, the gains of receiver and sender together are within what was locked. |
| `LockReclassification.PartnerUnlockIff` | raiden_common/raiden_event_handler.py:697-738 | The partner's locks are unlocked exactly when it settled with locks and one of them, worth something, was on-chain in the restored state or was open there and is on-chain now: from the partner to this node, with the pending locks of the restored state. |
| `LockReclassification.OurUnlockIff` | raiden_common/raiden_event_handler.py:740-782 | Our locks are unlocked exactly when we settled with locks and one of them, worth something, was open in the restored state, is not on-chain now, and a payment task asks for it. |
| `LockReclassification.UnlockPartnerLocks` | raiden_common/raiden_event_handler.py:697-738 | On the objects: an unlock of the partner's locks is sent exactly when a lock worth something was on-chain in the restored state, or was open there and is on-chain now. |
| `LockReclassification.UnlockOurLocks` | raiden_common/raiden_event_handler.py:740-782 | On the objects: an unlock of our locks is sent exactly when a lock worth something was open in the restored state, is not on-chain now, and a payment task asks for it. |
| `LockReclassification.HandleBatchUnlock` | raiden_common/raiden_event_handler.py:631-782 | Sends the two unlocks, each exactly as `PartnerUnlockIff` and `OurUnlockIff` say, for the ends that settled with locks, and raises exactly when a state it needs is not in the log, after the first unlock if that is the second one. |
| `DependencyOrder.ResolveDeps` | tools/pip-compile-wrapper.py:158-182 | Orders all sources so that none depends on a later one, or fails, exactly when some sources are stuck. |
| `DependencyOrder.OrderIsNotStuck` | tools/pip-compile-wrapper.py:158-163 | A complete order and a stuck set exclude each other. |

## Left out

- Mediator, initiator and target logic, fee schedules and routing: not part of the channel, log or sync core.
- Signature recovery, keccak, sha256 and the packing of balance proofs and withdraws: uninterpreted.
- Error texts, recipient metadata, message and payment identifiers, token addresses: no effect on the laws.
- The test that a refund matches the transfer it answers is a boolean input.
- Service registry events.
- A filter entry with an empty set of channels: none is ever built, so the meaning of an empty topic list is not modelled.
- Which settlements and unlocks remove a channel from the node's state is an input of `ChainFollowing`; it is assumed that no event of the channel comes in a later block. One token network per token is assumed too.
- SQL, serialization, the lock of the log and other thread switching: operations run one after the other.
- TwoNodes.QueuesReconcile: deposits are fixed and there are no withdraws, since withdraw messages share the nonce; a rejected message stays at the head of its queue; a run ends when a node drops the settled channel.
- BatchFetching.BlockBatchSizeAdjuster.Size: base two and step one, over integers; floating-point rounding of the exponent is not modelled.
- BlockchainEvents.ResultIsOnceIff: assumes a chain without an event twice and without a channel of a node with itself, as the contracts guarantee; so does `FollowerRuns.ProcessedOnceIff`.
- The lookups by address in `handle_contract_send_channelunlock` and the search for the restored states: the channel and the restored ends are inputs. A lack of funds for the transaction is not modelled.
- LockReclassification.GainsAddUp: assumes that a lock claimed on-chain since then is the lock that was pending under its secrethash.
