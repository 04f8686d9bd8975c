# Verified models of an xv6 port

This project models, in Dafny 4.11, the parts of an xv6 kernel port (RISC-V, Sv39, K230) whose
correctness is hard to see from the code: the redo log over an evicting buffer cache, the inode and
block layer, the page tables, the process life cycle, sleep and wakeup, the user allocator, the
shell's parser and grep's matcher.  `dafny verify dfyconfig.toml` checks everything.

| file | what it models |
|---|---|
| `Params.dfy` | the limits of `kernel/param.h` |
| `Blocks.dfy`, `Bitmap.dfy` | disk blocks as bytes and little-endian words; bits of a bitmap block |
| `Crash.dfy` | the log protocol as the block writes it issues, cut by crashes anywhere, recovery included |
| `LruRing.dfy`, `BlockStore.dfy` | the buffer cache's ring, and cache plus log as one block store |
| `Handles.dfy`, `CommitRuns.dfy` | that store with readers, operations and `commit()` interleaved |
| `LogAdmission.dfy` | how operations share the log's space |
| `FileSystem.dfy` | bitmap, block map, inodes: `readi`, `writei`, `itrunc`, `filewrite`, `ialloc`, `iput`, `ireclaim` |
| `BlockRuns.dfy` | who owns each data block while processes allocate and free blocks and inodes, interleaved |
| `Itable.dfy` | the in-memory inode table under interleaving |
| `Sv39.dfy`, `PageTable.dfy` | page-table entries; trees of tables, the page allocator, user memory |
| `ExitWait.dfy` | fork, exit, wait and the scheduler under interleaving |
| `Monitor.dfy` | sleep and wakeup around a condition lock, for any client |
| `Sleeplock.dfy`, `PipeWait.dfy` | two clients of it (the log is a third) |
| `Pipe.dfy` | the pipe's ring buffer |
| `Umalloc.dfy` | the user allocator |
| `ShellParser.dfy`, `ShellText.dfy` | the shell's parser; what it means |
| `Grep.dfy` | the regular-expression matcher |

## How to read it

*State that the source changes in place* is a class.  Its ghost function `Now()` is the whole state as
a value, `Valid()` is an invariant over that value, and each method says what its new state is in terms
of the old one.  Ghost fields record what the invariant needs: which slot owns a block, which tree a
table belongs to, what order the ring has.

*Protocols that interleave* (`CommitRuns`, `BlockRuns`, `ExitWait`, `Monitor` and its clients, `Itable`,
`Crash`) are machines: a step is one atomic action of the code, between which any other process may
act; spinlock acquire and release are atomic.  A run is a sequence of states, and the main lemmas speak
of every state of every run.

*Panics are outcomes*: a method returns a value that stands for the panic and says exactly when it is
returned.  The lemmas and contracts that say a panic is not reached are about those outcomes.

*The outside world is a parameter*: what `sbrk` grants, where a copy to or from user space fails, when
`killed` is first seen, what a file holds.

Hypotheses the code itself needs are part of the statements: buffers are of device 1 (at boot all are
tagged device 0); the copy from user space in `writei` succeeds; a lazily mapped page goes to the table
of the current process; holders of a buffer call `log_write`, and holders of an inode `iupdate`, before
they let go of it; blocks are changed only inside an operation, which lets go of its buffers before
`end_op` and logs fewer than MAXOPBLOCKS distinct blocks; files are read and written through allocated
inodes, as `ilock`'s panic makes sure.

Where the code and its comments disagree the model follows the code.  `loadseg` says that its address
must be page-aligned, but handles any alignment (`kernel/exec.c:155-171`), and so does the model.
`kexit` is described as releasing what the process holds, but closes no files and keeps the working
directory (`kernel/proc.c:587-599`).

A property that the code does not have: a reader asleep on a pipe is not always woken when data
arrives.  A writer killed inside `pipewrite` returns without a wakeup, and since `kexit` closes nothing
no later wakeup need come.  `PipeWait.ForgottenReader` is a run that shows it.  The exact condition is
on the moment of that return: bytes written since the writer's last wakeup, and a reader asleep.  With
it a reader is stranded (`PipeWait.KilledReturnStrands`), and a run in which it never holds strands
nobody (`PipeWait.ReadersNotForgotten`).

## Model

| member | source | states |
|---|---|---|
| `Crash.CommitCut` | kernel/log.c:179-204 | a commit cut after any number of its block writes is recovered as all of the transaction or none, and the first header write is the switch point |
| `Crash.RecoverCut` | kernel/log.c:117-124 | recovery cut anywhere leaves a disk from which recovery delivers the same home blocks |
| `Crash.RecoverAllHome` | kernel/log.c:66-84 | a recovery that finishes has every logged block home and an empty log |
| `Crash.CommitComplete` | kernel/log.c:194-204 | an uncut commit applies the transaction to the home blocks and leaves the log clean |
| `Crash.LoggedHoldsTransaction` | kernel/log.c:179-192 | after write_log and write_head the log area holds exactly the transaction |
| `Crash.DoKeepsInvariant` | kernel/log.c:66-124 | any action, cut anywhere, keeps "recovery delivers the surviving transactions" |
| `Crash.CrashAtomicity` | kernel/log.c:66-124 | over every run of commits, crashes and interrupted recoveries, what recovery delivers is the initial disk with exactly the transactions whose header write happened, in order and in full |
| `LruRing.UnlinkRemoves` | kernel/bio.c:124-145 | unlinking a buffer leaves a ring of the others in the same order |
| `LruRing.LinkFrontInserts` | kernel/bio.c:124-145 | linking a buffer behind the head puts it first and keeps the rest in order |
| `LruRing.MoveToFront` | kernel/bio.c:124-145 | brelse's relinking makes the buffer most recently used and changes no other order |
| `LruRing.BuildRing` | kernel/bio.c:36-53 | binit's loop builds one ring through all buffers, the last one first |
| `BlockStore.LockedSeesView` | kernel/bio.c:94-109 | whoever locks a buffer finds in it the last bytes a holder left in that block |
| `BlockStore.GotRecycled` | kernel/bio.c:58-91 | recycling an unreferenced buffer loses nothing, and no block ever has two buffers |
| `BlockStore.GotKeeps` | kernel/bio.c:58-91 | bget keeps the cache invariant and changes the identity of no referenced buffer |
| `BlockStore.SomeBufferFree` | kernel/bio.c:76-88 | with no holders and fewer pins than buffers one can be recycled |
| `BlockStore.ReferencedMeansPinned` | kernel/bio.c:147-159 | with no holders, all buffers referenced means at least NBUF pinned blocks |
| `BlockStore.QuietMeansClean` | kernel/log.c:194-204 | with the log empty and nobody holding a buffer the disk is the block map |
| `BlockStore.IdleIsClean` | kernel/log.c:194-204 | between commits disk and pending transaction meet the premises of the crash argument |
| `BlockStore.Store.constructor` | kernel/bio.c:36-53 | an empty cache over any image is valid, with the block map equal to the image |
| `BlockStore.Store.FindCached` | kernel/bio.c:64-74 | finds the one buffer of the block if it is cached |
| `BlockStore.Store.FindVictim` | kernel/bio.c:76-88 | finds the least recently used unreferenced buffer, or all are referenced |
| `BlockStore.Store.Bget` | kernel/bio.c:58-91 | panics exactly when nothing is cached or free; otherwise hands out the block's buffer and leaves every referenced buffer's identity |
| `BlockStore.Store.Acquire` | kernel/bio.c:94-109 | after locking and filling, the data are the block map's |
| `BlockStore.Store.Bread` | kernel/bio.c:94-109 | the buffer returned is locked and holds the block map's bytes; panics exactly when no buffer is to be had |
| `BlockStore.Store.Bwrite` | kernel/bio.c:112-120 | the block on disk becomes the buffer's bytes, one write is issued, the block map is unchanged |
| `BlockStore.Store.Releasesleep` | kernel/bio.c:130 | the buffer can be locked by others while the releaser still references it, and nothing changed is lost: what differs from the disk is pinned |
| `BlockStore.Store.Unref` | kernel/bio.c:132-144 | one reference goes, also when somebody else has locked the buffer meanwhile; the last one moves the buffer to the front of the ring |
| `BlockStore.Store.Brelse` | kernel/bio.c:124-145 | the two steps together, uninterrupted: lock and one reference go; the last reference moves the buffer to the front of the ring |
| `BlockStore.Store.BeginOp` | kernel/log.c:127-143 | one look of the loop: admits exactly when no commit is under way and the log has room for one more operation's blocks |
| `BlockStore.Store.EndOp` | kernel/log.c:147-176 | panics exactly during a commit; the last operation out commits, any other only leaves |
| `BlockStore.Store.LogWrite` | kernel/log.c:215-236 | panics exactly when the log is full or no operation is open; otherwise records and pins the block, once |
| `BlockStore.Store.WriteLog` | kernel/log.c:179-192 | copies the blocks of the transaction to the log area in order |
| `BlockStore.Store.FillHead` | kernel/log.c:103-115 | builds a header block that reads back as the list of logged blocks |
| `BlockStore.Store.WriteHead` | kernel/log.c:103-115 | one write, of that header |
| `BlockStore.Store.InstallTrans` | kernel/log.c:66-84 | every logged block's home gets its log block's bytes, unpinned when committing, with no buffer shortage |
| `BlockStore.Store.Commit` | kernel/log.c:194-204 | with nobody else holding a buffer: issues exactly the writes of the crash argument, never runs out of buffers, and ends with the disk equal to the block map and nothing pinned |
| `BlockStore.Store.ReadHead` | kernel/log.c:87-98 | loads the list of logged blocks that the header records |
| `BlockStore.Store.RecoverFromLog` | kernel/log.c:117-124 | issues exactly the recovery writes of the crash argument and leaves the log empty |
| `Handles.GetHands` | kernel/bio.c:58-91 | bget by one process keeps every other process's reference on its own block, whichever buffer is recycled |
| `Handles.HeldClean` | kernel/bio.c:124-145 | whoever holds a buffer it has not changed finds its block on disk or pinned by the log |
| `Handles.FreeHands` | kernel/bio.c:127-130 | a holder that has logged or written its change may release the lock, and nobody else's hold is touched |
| `Handles.LettingCounts` | kernel/bio.c:132-133 | between releasesleep and refcnt-- the reference is still counted, beside that of whoever has locked the buffer since |
| `CommitRuns.MoveBytes` | kernel/log.c:75-77 | with readers about, the bytes commit() moves are those of the next write the protocol owes, in each of its four loops |
| `CommitRuns.FlushPhase` | kernel/log.c:179-204 | each bwrite of commit() takes the log to its next phase |
| `CommitRuns.InstalledNow` | kernel/log.c:78-80 | bunpin comes when the home block is on disk |
| `CommitRuns.TxnMakesView` | kernel/log.c:151-165 | when the last operation ends, writing the logged blocks over the disk gives the block map |
| `CommitRuns.StepKeeps` | kernel/log.c:65-236 | every step of every process and of commit() keeps the invariant and every referenced buffer's identity |
| `CommitRuns.Boot` | kernel/log.c:53-63 | on every image with a well-formed log header, initlog's recovery leaves a system that runs start from, with the block map recovery delivers |
| `CommitRuns.OneOperation` | kernel/log.c:206-236 | from every such system, for every block and bytes, there is a run of begin_op, bread, change, log_write, brelse, end_op that begins a commit of exactly that block |
| `CommitRuns.CacheOfRun` | kernel/bio.c:58-145 | at every moment of every run, commits included, a locked buffer holds the last bytes a holder left in its block, no block has two buffers, and no referenced buffer changes its block |
| `CommitRuns.WritesOfRun` | kernel/log.c:179-204 | in every run what a commit under way has issued is exactly the first of the protocol's writes, whoever reads meanwhile; nothing else writes; none of the log's panics is reached if each operation logs fewer than MAXOPBLOCKS distinct blocks |
| `CommitRuns.LogRoomy` | kernel/log.c:215-236 | in the interleaved system a log_write is paid for by the space begin_op reserved for its operation, so "too big a transaction" is not reached |
| `CommitRuns.CrashOfRun` | kernel/log.c:117-204 | a crash at any moment of any run recovers the block map of a moment when no operation was open, and never one older than a finished commit |
| `CommitRuns.CommitNeverStuck` | kernel/log.c:179-204 | a commit under way can always take its next step, unless no buffer is left or a reader outside any operation (kernel/file.c:120-124) holds the home block it wants |
| `LogAdmission.ReservedSplit` | kernel/log.c:127-143 | the reserved space is the sum of what each open operation may still log |
| `LogAdmission.AdmitKeeps` | kernel/log.c:127-143 | an operation begin_op lets in fits beside everything already reserved |
| `LogAdmission.WriteKeeps` | kernel/log.c:215-236 | a block new to the log is new to the operation that logs it, so the log grows only at that operation's expense; a block already there is absorbed |
| `LogAdmission.LeaveKeeps` | kernel/log.c:147-176 | an operation that ends never finds a commit in progress, and its reservation is returned |
| `LogAdmission.LogDisciplined` | kernel/log.c:127-176 | whenever begin_op's condition can become true the same critical section goes on to wake its sleepers |
| `LogAdmission.LogSafe` | kernel/log.c:127-236 | if each operation logs fewer than MAXOPBLOCKS distinct blocks: in every state of every run lh.n is below LOGBLOCKS and the log holds every block an open operation logged, no log panic is reached, one process at most commits and only with no operation open, and with log.lock free a process asleep in begin_op could not be admitted |
| `FileSystem.ExactlyOneOwner` | kernel/fs.c:71-111 | between calls a data block's bit is set iff one slot of one inode names it, and never two; a free inode names none |
| `FileSystem.ProgressDone` | kernel/fs.c:534-568 | after the size update the file is the old content overlaid, and all other files are unchanged |
| `FileSystem.Truncated` | kernel/fs.c:454-482 | with an inode's slots clear exactly its blocks have no owner any more and no other file has changed |
| `FileSystem.KeptBits` | kernel/fs.c:454-482 | in terms of the bitmap: exactly the bits of those blocks are clear |
| `FileSystem.UntypedReleases` | kernel/fs.c:356-359 | clearing the type of a truncated inode frees it, in memory and on disk, and touches no other inode |
| `FileSystem.BareUpdated` | kernel/fs.c:204-225 | giving a free inode a type, or taking it away, changes no slot, no bit and no other inode |
| `FileSystem.CallLogsFew` | kernel/file.c:149-173 | a writei logs at most the bitmap blocks, the inode and indirect block and one block per file block it spans |
| `FileSystem.OverlayJoin` | kernel/file.c:149-173 | consecutive chunk writes are one write |
| `FileSystem.PutInodeReads` | kernel/fs.c:231-247 | an inode stored in its block reads back, and its neighbours are untouched |
| `FileSystem.Fs.constructor` | mkfs/mkfs.c:236-250 | an image with empty inodes and exactly the metadata blocks marked is well formed, and its inode blocks hold those inodes |
| `FileSystem.Fs.FindFree` | kernel/fs.c:76-91 | finds the lowest clear bit, or there is none |
| `FileSystem.Fs.Balloc` | kernel/fs.c:71-94 | returns the lowest free block, marked and zeroed, or 0 with the disk full |
| `FileSystem.Fs.Bfree` | kernel/fs.c:97-111 | clears exactly that bit; panics exactly if it was clear |
| `FileSystem.Fs.Bmap` | kernel/fs.c:410-450 | panics exactly past MAXFILE; otherwise returns the slot of the file's block, gaining at most that block and the indirect block and moving nothing; 0 only with the disk full |
| `FileSystem.Fs.Itrunc` | kernel/fs.c:454-482 | the file becomes empty, exactly its blocks become free, no other file changes, "freeing free block" is not reached |
| `FileSystem.Fs.Iput` | kernel/fs.c:342-368 | the last reference to an inode without links truncates and frees it: exactly its blocks' bits are cleared, its type is 0 in memory and on disk, no other file changes; any other call changes no file |
| `FileSystem.Fs.Ialloc` | kernel/fs.c:204-225 | takes the first free inode, cleared and typed on disk, and changes no other inode, file or block owner; 0 exactly when none is free |
| `FileSystem.Fs.Ireclaim` | kernel/fs.c:378-398 | afterwards no inode is allocated without links; exactly those that were are freed, with their blocks, and all other files are as before |
| `FileSystem.Fs.Readi` | kernel/fs.c:500-525 | copies out exactly content[off..min(off+n, size)], or on a failing copy a prefix of it up to the start of that chunk and returns -1; changes nothing |
| `FileSystem.Fs.Writei` | kernel/fs.c:534-568 | content becomes the old one with the bytes written over and past it; fewer than asked only with the disk full; -1 exactly for a bad range; no other file changes |
| `FileSystem.Fs.Iupdate` | kernel/fs.c:231-247 | the disk inode becomes the in-memory one, and no other |
| `FileSystem.Fs.WriteOp` | kernel/file.c:157-172 | one transaction's write, which logs at most seven distinct blocks and one for each full bitmap block: fewer than MAXOPBLOCKS on a disk of up to three bitmap blocks |
| `FileSystem.Fs.Filewrite` | kernel/file.c:149-173 | the chunk loop writes a prefix of the bytes as one write would, all of them unless the disk or the file is full, each transaction within WriteOp's bound |
| `BlockRuns.TakeKeeps` | kernel/fs.c:78-91 | a block balloc marks belongs to nobody, whatever other processes have half done |
| `BlockRuns.EnterKeeps` | kernel/fs.c:435-444 | storing a block's number in the inode's indirect block changes no live slot of any other inode, even one whose freed pointer still names that block |
| `BlockRuns.FreeKeeps` | kernel/fs.c:461-478 | bfree of a slot not freed yet finds the bit set, and the block is up for grabs before the slot is cleared |
| `BlockRuns.AllocGood` | kernel/fs.c:211-219 | an inode that ialloc finds free names no block in memory or on disk and nobody is working on it, so clearing it loses nothing |
| `BlockRuns.PutsBooks` | kernel/fs.c:231-247 | copying an inode to the inode block it shares with others changes no slot and no bit |
| `BlockRuns.StepGood` | kernel/fs.c:71-482 | every step keeps the books, and leaves other inodes' slots, blocks and disk copies alone |
| `BlockRuns.FreeInodesOfRun` | kernel/fs.c:204-368 | at every moment of every run an inode free on disk names no block, and none is on its way into it |
| `BlockRuns.OwnersOfRun` | kernel/fs.c:71-482 | at every moment of every interleaving of balloc, bmap, writei, itrunc, iupdate, ialloc and iput's freeing a data block's bit is set iff one live slot names it or one process is about to record it, never two and never both; "freeing free block" is not reached |
| `BlockRuns.OthersOfRun` | kernel/fs.c:71-482 | no step of one inode's holder moves or changes a block that another inode names |
| `Itable.FindEntry` | kernel/fs.c:252-283 | iget's scan finds the entry in use for the number, else the first unused; fails only when all are in use for others |
| `Itable.StepKeeps` | kernel/fs.c:204-368 | every step of every call keeps the table invariant |
| `Itable.AllocKeeps` | kernel/fs.c:204-225 | ialloc may take an inode whose entry another process's iput is still freeing |
| `Itable.PutNeverWaits` | kernel/fs.c:342-368 | iput, holding itable.lock, finds the sleep-lock of a last reference free |
| `Itable.TableCoherent` | kernel/fs.c:204-368 | in every state of every run an inode number has at most one entry in use, and one that is valid and unlocked equals the disk inode, which is not free |
| `Sv39.PteRoundTrip` | kernel/riscv.h:85-92 | PTE2PA undoes PA2PTE for every page address under any flag bits |
| `Sv39.FlagsSurvive` | kernel/vm.c:327-343 | the mask uvmcopy uses recovers every flag bit, the high attribute bits included |
| `Sv39.StoredEntry` | kernel/vm.c:82-92 | the word mappages stores decodes to that page and those permissions |
| `PageTable.Vm.constructor` | kernel/kalloc.c:20-34 | freerange puts every page on the free list once |
| `PageTable.Vm.Kalloc` | kernel/kalloc.c:63-77 | takes a page nobody uses; fails exactly with the list empty |
| `PageTable.Vm.Kfree` | kernel/kalloc.c:40-58 | panics exactly on a page outside the allocator's range; puts a page nobody maps back on the list |
| `PageTable.Vm.Walk` | kernel/vm.c:37-55 | panics exactly at MAXVA and above; otherwise reaches the entry for the address; allocating tables changes no translation; fails only for lack of a page or, without alloc, of a table |
| `PageTable.Vm.Mappages` | kernel/vm.c:64-93 | changes the translation of exactly the pages it mapped and of no other address of any tree; stops only for lack of memory, at a page already mapped or past MAXVA; panics exactly on an unaligned address or size and for no pages at all, and there changes nothing |
| `PageTable.Vm.Uvmunmap` | kernel/vm.c:168-188 | removes exactly the named translations and frees exactly the pages they owned; panics exactly on an unaligned address, having done nothing, or past MAXVA |
| `PageTable.Vm.Uvmcreate` | kernel/vm.c:221-230 | a new tree that translates nothing |
| `PageTable.Vm.Uvmalloc` | kernel/vm.c:233-257 | zeroed pages from the old size to the new, where nothing was mapped; on failure every page and mapping is undone, and there were fewer than three free pages per page asked for; panics only at a page already mapped or past MAXVA |
| `PageTable.Vm.Uvmdealloc` | kernel/vm.c:263-275 | unmaps and frees exactly the pages between the sizes; panics exactly when it would have to unmap past MAXVA |
| `PageTable.Vm.Freewalk` | kernel/vm.c:191-207 | panics exactly if a leaf is mapped anywhere in the subtree; otherwise the subtree's pages go back once each |
| `PageTable.Vm.Uvmfree` | kernel/vm.c:211-217 | panics exactly if a page is mapped past the size or the size is past MAXVA; otherwise every table and user page of the tree goes back exactly once and every other tree is unchanged |
| `PageTable.Vm.ProcPagetable` | kernel/proc.c:226-256 | a tree with exactly the trampoline and trapframe mapped, or, with fewer than six pages free, every page back on the free list |
| `PageTable.Vm.ProcFreepagetable` | kernel/proc.c:181-187 | with nothing mapped between the process's pages and its trapframe, every page goes back once |
| `PageTable.Vm.Uvmcopy` | kernel/vm.c:313-361 | the child gets the parent's bytes and permission bits on pages of its own; all is undone if memory runs out, which takes fewer than three free pages per page; panics only if a page is not present |
| `PageTable.ForkCopies` | kernel/vm.c:313-361 | after a successful copy the child reads the parent's bytes, under the same bits, from frames that were free |
| `PageTable.ForkIsolated` | kernel/vm.c:430-463 | a later copyout to parent or child never shows in the other |
| `PageTable.Vm.Walkaddr` | kernel/vm.c:366-384 | the page's frame exactly when it is mapped for the user, else 0 |
| `PageTable.Vm.Vmfault` | kernel/vm.c:401-426 | maps a zero page where none was below the process's size, and fails only otherwise or without memory; no byte of any process changes |
| `PageTable.Vm.Copyout` | kernel/vm.c:430-463 | at every alignment exactly the addressed bytes change, to the source's; on failure exactly a prefix, up to an address that cannot be written; every address written is then a page of the user's |
| `PageTable.Vm.Copyin` | kernel/vm.c:468-491 | returns the bytes that address-by-address translation reads, lazily allocated pages as zero, and changes no byte |
| `PageTable.Vm.Copyinstr` | kernel/vm.c:497-538 | returns the bytes up to the first NUL, if it comes within max bytes of user pages |
| `PageTable.Vm.CopyThereAndBack` | kernel/vm.c:430-491 | when copyout to a range succeeds, copyin from it succeeds too and returns exactly what was written |
| `PageTable.PokeStore` | kernel/vm.c:430-463 | a store through one mapping shows at no other address of any tree |
| `PageTable.Vm.Loadseg` | kernel/exec.c:159-192 | stores the file's bytes at the addressed range and nowhere else, at every alignment; short exactly at the end of the file |
| `ExitWait.StepKeeps` | kernel/proc.c:96-162 | every atomic action of fork, exit, wait, sleep, wakeup, kill and the scheduler keeps the invariant |
| `ExitWait.ExitWaitProtocol` | kernel/proc.c:551-683 | in every state of every run parent pointers name live processes, every live process but init has one, with wait_lock free nobody sleeps in kwait with a zombie child, a zombie about to be freed is on no processor, and no pid is reaped twice |
| `ExitWait.ZombieStays` | kernel/proc.c:635-683 | a zombie keeps its pid until its own parent's kwait collects it |
| `ExitWait.NoChildrenIsTrue` | kernel/proc.c:635-683 | kwait takes itself to be childless only if it is |
| `ExitWait.ForkFamily` | kernel/proc.c:462-511 | a step of kfork keeps, for every process: its parent is live, and a zombie's parent does not sleep in kwait unless a wakeup of it is on its way |
| `ExitWait.AdoptFamily` | kernel/proc.c:551-562 | the same for reparent, which makes init the parent of zombies first and wakes it afterwards |
| `ExitWait.DieFamily` | kernel/proc.c:579-619 | the same for kexit, which wakes the parent first and becomes a zombie afterwards |
| `ExitWait.ScanFamily` | kernel/proc.c:635-683 | the same for kwait's scan, which may skip no zombie child |
| `ExitWait.ChildFamily` | kernel/proc.c:650-672 | the same for freeing a child under its lock |
| `ExitWait.SleepFamily` | kernel/proc.c:703-730 | the same for sleep, between whose release of wait_lock and SLEEPING any process may exit |
| `ExitWait.RunFamily` | kernel/proc.c:96-138 | the same for kill, for wakeups on other channels and for the scheduler |
| `Monitor.NoLostWakeup` | kernel/proc.c:703-756 | for every client that pays the wakeups it owes before it releases the lock or sleeps: in every state of every run, with the lock free, nobody sleeps on a ready channel |
| `Monitor.MovesKeep` | kernel/proc.c:703-730 | the steps of sleep, one by one, keep that invariant |
| `Monitor.VisitsKeep` | kernel/proc.c:742-756 | each turn of wakeup's loop keeps that invariant |
| `Monitor.KillsKeep` | kernel/proc.c:773-793 | kill keeps that invariant |
| `Sleeplock.LocksDisciplined` | kernel/sleeplock.c:21-52 | acquiresleep, releasesleep and holdingsleep are such a client |
| `Sleeplock.SleeplockSafe` | kernel/sleeplock.c:21-52 | at most one holder; with the inner lock free and locked 0 nobody sleeps; holdingsleep is true exactly for the holder |
| `PipeWait.PipesDisciplined` | kernel/pipe.c:58-134 | pipewrite, piperead and pipeclose are such a client |
| `PipeWait.WritersNotForgotten` | kernel/pipe.c:76-134 | with pi->lock free a sleeping writer has no room and an open read end |
| `PipeWait.ReadersNotForgotten` | kernel/pipe.c:58-134 | in every run in which no killed writer leaves bytes unannounced past a sleeping reader: with pi->lock free, a sleeping reader has no data and an open write end |
| `PipeWait.KilledReturnStrands` | kernel/pipe.c:83-87 | in such a run the killed return out of the write loop leaves a reader asleep with data if and only if bytes were written since the last wakeup and some reader is asleep |
| `PipeWait.BailsIsReturn` | kernel/pipe.c:84-87 | that return is two steps of the program |
| `PipeWait.DoesInRing` | kernel/pipe.c:88-97 | the ring never holds more than PIPESIZE bytes, so a byte just written can be seen |
| `PipeWait.ForgottenReader` | kernel/pipe.c:84-87 | a run in which such a writer leaves a reader asleep with data in the pipe |
| `Pipe.Counters` | kernel/pipe.c:88-89 | the 32-bit comparisons of nread and nwrite tell full and empty, past every wrap |
| `Pipe.Ring.constructor` | kernel/pipe.c:22-56 | a new pipe is empty and open |
| `Pipe.Ring.Put` | kernel/pipe.c:92-97 | the byte joins the end of what the ring holds, overwriting none of it |
| `Pipe.Ring.Write` | kernel/pipe.c:76-103 | accepts a prefix of the bytes in order; stops exactly when the ring is full, the reader gone, the process killed or the copy fails |
| `Pipe.Ring.Read` | kernel/pipe.c:117-134 | delivers the oldest bytes, as many as asked for, present and copied out; so delivered plus ring contents is always accepted |
| `Pipe.Ring.MustWait` | kernel/pipe.c:112-118 | the reader sleeps exactly when the ring is empty and the write end open |
| `Pipe.Ring.Close` | kernel/pipe.c:58-74 | closes one end; the memory goes exactly when both are closed |
| `Umalloc.Heap.constructor` | user/umalloc.c:21-22 | no memory is taken before the first call |
| `Umalloc.Heap.Search` | user/umalloc.c:29-32 | the search ends, at the node after which the block belongs in address order |
| `Umalloc.Heap.Free` | user/umalloc.c:24-44 | the block becomes free and joins the neighbours it touches; every other live block keeps its place and size |
| `Umalloc.Heap.Morecore` | user/umalloc.c:46-61 | memory from sbrk joins the free list |
| `Umalloc.Heap.Malloc` | user/umalloc.c:63-90 | returns a block of the right size that nobody holds, from the free list if one is big enough and else from sbrk; NULL only if sbrk fails; the loop ends |
| `Umalloc.Heap.Carve` | user/umalloc.c:73-84 | a block that fits exactly leaves the ring; a larger one stays, shorter, and its top end is handed out |
| `Umalloc.CoalescedKeeps` | user/umalloc.c:24-44 | free leaves one address-ordered ring with no two free neighbours touching |
| `Umalloc.OneBlockEach` | user/umalloc.c:24-90 | every unit taken is in exactly one block, free or live, and blocks have no others |
| `Umalloc.FreeListCanonical` | user/umalloc.c:24-90 | which units are free decides the free list, nodes and sizes |
| `Umalloc.FreeUndoesMalloc` | user/umalloc.c:24-90 | freeing what malloc has just cut from the free list restores that list |
| `ShellParser.Parser.GetToken` | user/sh.c:271-314 | computes the kind, the two ends and the follow-up position of the next token |
| `ShellParser.Parser.Peek` | user/sh.c:316-326 | stops at the first nonblank and tells whether it is one of the characters asked for |
| `ShellParser.Parser.ParseRedirs` | user/sh.c:380-403 | computes the list of redirections from the cursor on, or that a file name is missing, and ends |
| `ShellParser.Parser.ParseExec` | user/sh.c:421-452 | words and redirections in any order: computes the command or the panic (syntax, a tenth argument, a missing file), and ends |
| `ShellParser.Parser.ParseBlock` | user/sh.c:405-419 | a parenthesised line and its redirections: computes the command or the panic, and ends |
| `ShellParser.Parser.ParsePipe` | user/sh.c:367-378 | a pipeline, right-associated: computes the command or the panic, and ends |
| `ShellParser.Parser.ParseLine` | user/sh.c:350-365 | a line with its & and ;: computes the command or the panic, and ends |
| `ShellParser.Parser.ParseCmd` | user/sh.c:333-348 | the whole line: computes the command or the panic, which comes also when something is left over |
| `ShellText.PrintParse` | user/sh.c:271-452 | parsing the fully parenthesised print of any command tree with at most 9 arguments per exec gives that tree back |
| `ShellText.ParsePrint` | user/sh.c:271-452 | for any line that parses, printing what it says and parsing again says the same |
| `ShellText.LineOk` | user/sh.c:350-419 | printed text inside any line is parsed as its command, up to its closing parenthesis |
| `ShellText.LineGood` | user/sh.c:350-452 | whatever the line, every word of a parsed tree is one whole word of the line |
| `ShellText.NulTerminate` | user/sh.c:455-499 | writes zeros exactly at the ends of the tree's words |
| `ShellText.NulTerminated` | user/sh.c:455-499 | for any line that parses, every argument and file string is then exactly its word |
| `ShellText.PrintedWordsArrive` | user/sh.c:271-499 | so a printed command reaches execution with exactly its words |
| `Grep.Match` | user/grep.c:72-82 | returns 1 iff some substring, anchored as ^ and $ demand, is in the language of the pattern |
| `Grep.MatchHere` | user/grep.c:85-96 | true iff some prefix of the text is in the language of the pattern |
| `Grep.MatchStar` | user/grep.c:99-106 | true iff some run of covered characters is followed by a match: shortest first misses none |
| `Grep.HereOne` | user/grep.c:85-96 | a single item followed by a pattern matches iff the item covers the first character and the pattern matches the rest |
| `Grep.HereStar` | user/grep.c:99-106 | a starred item followed by a pattern matches iff some run of covered characters is followed by a match of the pattern, against the inductive semantics |

## Left out

- Devices, traps, timer, boot and assembly: a context switch is a hand-off step; spinlocks are atomic, with no memory model.
- Progress: every result is about safety; that a runnable process is eventually run is not claimed.
- System-call dispatch, argument fetching, exec outside loadseg, the console and user programs other than the three modelled.
- Directories, path walking and link counts: removed directories may still be a working directory, so natural invariants would need heavy side conditions.
- File descriptor reference counts: exit does not close files, so counts and descriptors need not agree.
- The kernel's own page table and device mappings; a tree may hold foreign mappings, which the model records but does not own.
- either_copyin failing midway through writei, which may leave a half-copied buffer unlogged.
- FileSystem.Fs.WriteOp: on a disk of more than three bitmap blocks the stated bound is above MAXOPBLOCKS, because every block allocated may come from another bitmap block; mkfs makes images of one.
- FileSystem.Fs.Bmap: asks for an allocated inode, as ilock's "no type" panic guarantees; likewise Readi, Writei, WriteOp and Filewrite.
- FileSystem.Fs.Ialloc: the in-memory inode takes its disk value at once, as the first ilock gives it; references and the inode table are Itable's subject, also for Iput.
- BlockStore.Store.Commit: is about a commit with nobody else holding a buffer, the case in which buffers cannot run out; CommitRuns has everybody else, with "no buffers" as an outcome.
- BlockStore.Store.EndOp: may call Commit, and asks the same.
- BlockStore.Store.WriteLog: is a part of Commit, and asks the same.
- BlockStore.Store.WriteHead: as WriteLog.
- BlockStore.Store.InstallTrans: as WriteLog.
- BlockStore.Store.Bread: is called with the buffer's sleep-lock free; waiting for it is in CommitRuns and Sleeplock.
- BlockStore.Store.Acquire: as Bread.
- CommitRuns.CacheOfRun: taking a buffer's lock and bread's fill are one step, since nobody else sees the buffer in between; likewise write_head's filling of the header.
- CommitRuns.WritesOfRun: "no buffers" stays a possible outcome, because readers may hold every buffer.
- BlockRuns.OwnersOfRun: balloc takes any clear bit, since its scan of several bitmap blocks is not atomic; each inode has one process at work on it, its lock's holder; iput clears the type of an inode that itrunc has left empty; that only an inode just allocated needs reading from disk is Itable's subject.
- LogAdmission.LogSafe: takes the block writes of a commit as one step, since CommitRuns and Crash treat them one by one.
- PipeWait.KilledReturnStrands: takes the two steps of the return together.
- Itable.TableCoherent: assumes that holders call iupdate before iunlock and never store type 0 themselves; reads and writes of one disk inode are atomic, as the buffer's lock makes them.
- ExitWait.ExitWaitProtocol: allocproc's scan is one step that takes any unused slot; pids do not wrap around; "init exiting" is a halt, so init takes no exit step.
- Monitor.NoLostWakeup: wakeup's look at one slot is one step, as that slot's lock makes it.
- PageTable.Vm.Loadseg: offsets do not wrap around 32 bits.
- PageTable.Vm.Vmfault: is about the current process's own table, to which the source maps whatever table it is given.
- Umalloc.Heap.Malloc: sizes do not wrap around 32 bits, so requests stay below 2^31 bytes; headers are fields of their addresses, not bytes.
- ShellParser.Parser.ParseRedirs: returns the redirections, which the caller wraps around the command when it is complete, because the source keeps adding arguments to a node that is already wrapped.
- PageTable.Vm.Uvmunmap: is never asked to free a foreign page, which kfree would not notice.
- PageTable.Vm.Kfree: asks that a page of its own is handed out and mapped by nobody, since the source does not notice a double free.
- PageTable.Vm.Uvmfree: asks for a tree without foreign mappings, which its callers unmap first; likewise Uvmdealloc, in the range it frees.
- PageTable.Vm.Copyout: asks that foreign mappings are closed to the user, as the trampoline and the trapframe are; likewise Copyin, Copyinstr and Loadseg.
- BlockStore.Store.LogWrite: asks for a block outside the log area and no commit in progress, which CommitRuns shows.
- BlockStore.Store.RecoverFromLog: asks for a header that lists distinct blocks outside the log area, as every cut of a commit leaves it.
- BlockStore.Store.ReadHead: as RecoverFromLog.
- CommitRuns.Boot: as RecoverFromLog.
- FileSystem.Fs.Writei: asks that the disk inodes agree with the in-memory ones, which every call keeps from the first image on.
