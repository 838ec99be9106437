/**
The epoll poller and the channels it registers. A channel keeps its own event mask and a
registration index; the poller keeps a file-descriptor map `chs`; the kernel keeps the interest
table that decides which events are ever reported. `EpollPoller.Valid` says how the three agree,
and every operation keeps it, so it holds after every sequence of operations.
*/
module Poller {

  /** The epoll event bits the library looks at; a mask is the set of its bits. */
  datatype Event = In | Pri | Out | Err | Hup

  type Mask = set<Event>

  const NONE_EVENT: Mask := {}
  const READ_EVENT: Mask := {In, Pri}
  const WRITE_EVENT: Mask := {Out}

  datatype Index = New | Added | Deleted

  datatype CtlOp = CtlAdd | CtlMod | CtlDel

  predicate Writing(mask: Mask) {
    Out in mask
  }

  predicate Reading(mask: Mask) {
    In in mask || Pri in mask
  }

  class Chan {
    const fd: int
    var events: Mask
    /** What the last poll that named this channel reported. */
    var revents: Mask
    var index: Index

    constructor (fd: int)
      ensures this.fd == fd && events == NONE_EVENT && revents == NONE_EVENT && index == New
    {
      this.fd := fd;
      events, revents := NONE_EVENT, NONE_EVENT;
      index := New;
    }
  }

  /** One row of the kernel's interest table: the mask and the user pointer handed to the kernel. */
  datatype Interest = Interest(mask: Mask, ptr: Chan)

  /** One event of a poll, as the kernel hands it back. */
  datatype Report = Report(fd: int, events: Mask)

  /** The kernel's side of a control call: adding a present descriptor or touching an absent one fails. */
  function EpollCtl(table: map<int, Interest>, op: CtlOp, fd: int, row: Interest): map<int, Interest> {
    match op
    case CtlAdd => if fd in table then table else table[fd := row]
    case CtlMod => if fd in table then table[fd := row] else table
    case CtlDel => table - {fd}
  }

  /** A row for `fd` in the kernel table, and one in the map for a new channel: when the keys agree after that. */
  lemma KeysAfterUpdate(chs: map<int, Chan>, kernel: map<int, Interest>, index: Index, c: Chan)
    requires if index == Added then c.fd in kernel else c.fd !in chs && c.fd !in kernel
    ensures var chs' := if index == New then chs[c.fd := c] else chs;
      chs'.Keys == (kernel.Keys + {c.fd}) <==> chs.Keys == kernel.Keys && index != Deleted
  {
    if index == Added {
      assert kernel.Keys + {c.fd} == kernel.Keys;
    } else if index == New {
      assert chs[c.fd := c].Keys - {c.fd} == chs.Keys && (kernel.Keys + {c.fd}) - {c.fd} == kernel.Keys;
    } else {
      assert c.fd in kernel.Keys + {c.fd};
    }
  }

  class EpollPoller {
    var chs: map<int, Chan>
    var kernel: map<int, Interest>
    /** Every channel that uses this poller. */
    ghost var known: set<Chan>
    /** The channels that have been removed at least once. */
    ghost var removed: set<Chan>

    ghost predicate DistinctFds()
      reads this
    {
      forall c, d :: c in known && d in known && c.fd == d.fd ==> c == d
    }

    /** The kernel holds exactly the channels with index Added, each with its own mask and pointer. */
    ghost predicate KernelAgrees()
      reads this, known`index, known`events
    {
      && (forall c :: c in known ==> (c.index == Added <==> c.fd in kernel))
      && (forall c :: c in known && c.index == Added ==> kernel[c.fd] == Interest(c.events, c))
      && (forall fd :: fd in kernel ==> kernel[fd].ptr in known && kernel[fd].ptr.fd == fd)
    }

    /** `chs` holds exactly the registered channels that were never removed before. */
    ghost predicate MapAgrees()
      reads this, known`index, known`events
    {
      && removed <= known
      && (forall c :: c in known ==> (HasChan(c) <==> c.index == Added && c !in removed))
      && (forall fd :: fd in chs ==> chs[fd] in known && chs[fd].fd == fd)
      && (forall c :: c in known && c.index == New ==> c !in removed)
      && (forall c :: c in known && c.index == Deleted ==> c in removed)
    }

    ghost predicate Valid()
      reads this, known`index, known`events
    {
      DistinctFds() && KernelAgrees() && MapAgrees()
    }

    predicate HasChan(c: Chan)
      reads this
    {
      c.fd in chs && chs[c.fd] == c
    }

    constructor ()
      ensures Valid() && known == {} && kernel == map[] && chs == map[]
    {
      chs, kernel := map[], map[];
      known, removed := {}, {};
    }

    /** A new channel on a descriptor no other channel of this poller uses. */
    ghost method Admit(c: Chan)
      requires Valid() && c.index == New
      requires forall d :: d in known ==> d.fd != c.fd
      modifies this`known
      ensures Valid() && known == old(known) + {c}
    {
      assert c.fd !in kernel;
      known := known + {c};
      assert c !in removed;
    }

    /** A dead channel leaves; only an unregistered one may, and its descriptor can then be used again. */
    ghost method Retire(c: Chan)
      requires Valid() && c in known && c.index != Added
      modifies this`known, this`removed
      ensures Valid() && known == old(known) - {c}
      ensures c.fd !in kernel && forall d :: d in known ==> d.fd != c.fd
    {
      known, removed := known - {c}, removed - {c};
      assert !HasChan(c) && c.fd !in kernel;
    }

    /** Agreement everywhere, but the kernel may still hold an older mask of `c`. */
    ghost predicate ValidBut(c: Chan)
      reads this, known`index, known`events
    {
      && DistinctFds() && c in known && MapAgrees()
      && (forall d :: d in known ==> (d.index == Added <==> d.fd in kernel))
      && (forall d :: d in known && d != c && d.index == Added ==> kernel[d.fd] == Interest(d.events, d))
      && (forall fd :: fd in kernel ==> kernel[fd].ptr in known && kernel[fd].ptr.fd == fd)
    }

    /** The map and the kernel table keep the same keys unless the channel comes back from a removal. */
    method UpdateChan(c: Chan)
      requires ValidBut(c)
      modifies this`chs, this`kernel, c`index
      ensures Valid() && c.index == Added
      ensures kernel == old(kernel)[c.fd := Interest(c.events, c)]
      ensures chs == if old(c.index) == New then old(chs)[c.fd := c] else old(chs)
      ensures chs.Keys == kernel.Keys <==> old(chs.Keys == kernel.Keys) && old(c.index) != Deleted
    {
      KeysBeforeUpdate(c);
      if c.index == New || c.index == Deleted {
        Register(c);
      } else {
        kernel := EpollCtl(kernel, CtlMod, c.fd, Interest(c.events, c));
      }
      assert kernel.Keys == old(kernel.Keys) + {c.fd};
    }

    lemma KeysBeforeUpdate(c: Chan)
      requires ValidBut(c)
      ensures var chs' := if c.index == New then chs[c.fd := c] else chs;
        chs'.Keys == kernel.Keys + {c.fd} <==> chs.Keys == kernel.Keys && c.index != Deleted
    {
      assert c.fd in chs ==> HasChan(c);
      KeysAfterUpdate(chs, kernel, c.index, c);
    }

    /** The branch of an update that adds the descriptor to the kernel table. */
    method Register(c: Chan)
      requires ValidBut(c) && c.index != Added
      modifies this`chs, this`kernel, c`index
      ensures Valid() && c.index == Added
      ensures kernel == old(kernel)[c.fd := Interest(c.events, c)]
      ensures chs == if old(c.index) == New then old(chs)[c.fd := c] else old(chs)
    {
      if c.index == New {
        chs := chs[c.fd := c];
      }
      c.index := Added;
      kernel := EpollCtl(kernel, CtlAdd, c.fd, Interest(c.events, c));
    }

    /** Removing an unregistered channel changes only its index; the kernel's refusal is ignored. */
    method RemoveChan(c: Chan)
      requires Valid() && c in known
      modifies this`chs, this`kernel, this`removed, c`index
      ensures Valid() && c.index == Deleted && c.fd !in kernel && !HasChan(c)
      ensures kernel == old(kernel) - {c.fd} && chs == old(chs) - {c.fd}
      ensures removed == old(removed) + {c}
    {
      chs := chs - {c.fd};
      c.index := Deleted;
      removed := removed + {c};
      kernel := EpollCtl(kernel, CtlDel, c.fd, Interest(c.events, c));
    }

    /** The shared tail of all mask changes: store the new mask, then update. */
    method SetMask(c: Chan, mask: Mask)
      requires Valid() && c in known
      modifies this`chs, this`kernel, c`events, c`index
      ensures Valid() && c.events == mask && c.index == Added
      ensures kernel == old(kernel)[c.fd := Interest(mask, c)]
      ensures chs.Keys == kernel.Keys <==> old(chs.Keys == kernel.Keys) && old(c.index) != Deleted
    {
      c.events := mask;
      UpdateChan(c);
    }

    method EnableReading(c: Chan)
      requires Valid() && c in known
      modifies this`chs, this`kernel, c`events, c`index
      ensures Valid() && c.index == Added && c.events == old(c.events) + READ_EVENT
      ensures Reading(c.events) && Writing(c.events) == old(Writing(c.events))
      ensures kernel == old(kernel)[c.fd := Interest(c.events, c)]
    {
      SetMask(c, c.events + READ_EVENT);
    }

    method EnableWriting(c: Chan)
      requires Valid() && c in known
      modifies this`chs, this`kernel, c`events, c`index
      ensures Valid() && c.index == Added && c.events == old(c.events) + WRITE_EVENT
      ensures Writing(c.events) && Reading(c.events) == old(Reading(c.events))
      ensures kernel == old(kernel)[c.fd := Interest(c.events, c)]
    {
      SetMask(c, c.events + WRITE_EVENT);
    }

    method DisableReading(c: Chan)
      requires Valid() && c in known
      modifies this`chs, this`kernel, c`events, c`index
      ensures Valid() && c.index == Added && c.events == old(c.events) - READ_EVENT
      ensures !Reading(c.events) && Writing(c.events) == old(Writing(c.events))
      ensures kernel == old(kernel)[c.fd := Interest(c.events, c)]
    {
      SetMask(c, c.events - READ_EVENT);
    }

    method DisableWriting(c: Chan)
      requires Valid() && c in known
      modifies this`chs, this`kernel, c`events, c`index
      ensures Valid() && c.index == Added && c.events == old(c.events) - WRITE_EVENT
      ensures !Writing(c.events) && Reading(c.events) == old(Reading(c.events))
      ensures kernel == old(kernel)[c.fd := Interest(c.events, c)]
    {
      SetMask(c, c.events - WRITE_EVENT);
    }

    /** The descriptor stays registered with an empty mask, so hang-ups are still reported. */
    method DisableAll(c: Chan)
      requires Valid() && c in known
      modifies this`chs, this`kernel, c`events, c`index
      ensures Valid() && c.index == Added && c.events == NONE_EVENT
      ensures kernel == old(kernel)[c.fd := Interest(NONE_EVENT, c)]
    {
      SetMask(c, NONE_EVENT);
    }

    /**
    What `epoll_wait` delivers: at most one report for each registered descriptor. Every report reaches
    the channel it is about, by its own pointer, and no other channel is touched.
    */
    method FillActive(reports: seq<Report>) returns (active: seq<Chan>)
      requires Valid() && forall i :: 0 <= i < |reports| ==> reports[i].fd in kernel
      requires forall i, j :: 0 <= i < j < |reports| ==> reports[i].fd != reports[j].fd
      modifies known`revents
      ensures Valid() && |active| == |reports|
      ensures forall i :: 0 <= i < |reports| ==>
        && active[i] in known && active[i].index == Added
        && active[i].fd == reports[i].fd && active[i].revents == reports[i].events
      ensures forall c :: c in known && c !in active ==> c.revents == old(c.revents)
    {
      active := [];
      for i := 0 to |reports|
        invariant |active| == i
        invariant forall j :: 0 <= j < i ==>
          && active[j] in known && active[j].index == Added
          && active[j].fd == reports[j].fd && active[j].revents == reports[j].events
        invariant forall c :: c in known && c !in active ==> c.revents == old(c.revents)
      {
        var ch := kernel[reports[i].fd].ptr;
        assert ch in known && ch.fd == reports[i].fd;
        ch.revents := reports[i].events;
        active := active + [ch];
      }
    }

    /** A removed channel that is updated again: the kernel reports it, and the map does not know it. */
    method ReRegister(c: Chan)
      requires Valid() && c in known
      modifies this`chs, this`kernel, this`removed, c`events, c`index
      ensures Valid() && c.fd in kernel && c.fd !in chs && chs.Keys != kernel.Keys
    {
      RemoveChan(c);
      EnableReading(c);
      MapEqualsKernel();
      assert c in removed && !HasChan(c);
    }

    /** `chs` covers the kernel table exactly when no removed channel has been registered again. */
    lemma MapEqualsKernel()
      requires Valid()
      ensures chs.Keys <= kernel.Keys
      ensures chs.Keys == kernel.Keys <==> forall c :: c in removed ==> c.index != Added
    {
      forall fd | fd in chs
        ensures fd in kernel
      {
        assert HasChan(chs[fd]);
      }
      if forall c :: c in removed ==> c.index != Added {
        forall fd | fd in kernel
          ensures fd in chs
        {
          var c := kernel[fd].ptr;
          assert c.index == Added && HasChan(c);
        }
      } else {
        var c :| c in removed && c.index == Added;
        assert c.fd in kernel && !HasChan(c);
      }
    }
  }
}
