/** The server's slabs as the code keeps them: arrays updated in place, beside the kernel's state. */
module ServerTables {
  import opened Wrappers
  import opened Handshake
  import opened Server

  class ServerTables {
    var kernel: Kernel
    var clientSlab: array<Client>
    var clientPtrSlab: array<int>
    var timerSlab: array<int>

    ghost predicate Valid()
      reads this, clientSlab, clientPtrSlab, timerSlab
    {
      && clientPtrSlab != timerSlab
      && View().Sized() && TimersInRange(View()) && kernel.InRange(clientSlab.Length)
    }

    ghost function View(): Slabs
      reads this, clientSlab, clientPtrSlab, timerSlab
    {
      Slabs(clientSlab[..], clientPtrSlab[..], timerSlab[..])
    }

    /** create_client_struct and setup_timer for a new connection. */
    method AcceptNewClient(fd: int, timer: int)
      requires Valid() && 0 < fd < clientSlab.Length && 0 < timer < clientSlab.Length
      requires fd !in kernel.open && timer !in kernel.open && fd != timer
      modifies this`kernel, clientSlab, clientPtrSlab, timerSlab
      ensures Valid()
      ensures (kernel, View()) == AcceptTables(old(kernel), old(View()), fd, timer)
      ensures View().clients == old(View()).clients[fd := Client(fd, -1, New)]
      ensures View().slot == old(View()).slot[fd := fd] && View().timerFor == old(View()).timerFor[timer := fd]
      ensures kernel.open == old(kernel).open[fd := Socket][timer := Timer]
      ensures fd in kernel.armed && timer in kernel.timersArmed
      ensures kernel.reg == old(kernel).reg + {fd} && kernel.timers == old(kernel).timers + {timer}
    {
      clientSlab[fd] := Client(fd, -1, New);
      clientPtrSlab[fd] := fd;
      kernel := kernel.OpenArmed(fd, Socket);
      kernel := kernel.OpenTimer(timer);
      timerSlab[timer] := fd;
      assert clientSlab[..] == old(clientSlab[..])[fd := Client(fd, -1, New)];
      assert clientPtrSlab[..] == old(clientPtrSlab[..])[fd := fd];
      assert timerSlab[..] == old(timerSlab[..])[timer := fd];
    }

    method StoreCopy(c: Client)
      requires Valid() && 0 <= c.sock < clientSlab.Length && c.pty < clientSlab.Length
      modifies clientSlab, clientPtrSlab
      ensures Valid() && View() == StoreClient(old(View()), c)
      ensures c.sock == 0 ==> View() == old(View())
      ensures c.sock != 0 ==>
        && View().clients == old(View()).clients[c.sock := c] && View().timerFor == old(View()).timerFor
        && View().slot[c.sock] == c.sock && (c.pty > 0 ==> View().slot[c.pty] == c.sock)
        && forall f | 0 <= f < |View().slot| && f != c.sock && f != c.pty :: View().slot[f] == old(View()).slot[f]
    {
      if c.sock != 0 {
        clientSlab[c.sock] := c;
        clientPtrSlab[c.sock] := c.sock;
        if c.pty > 0 {
          clientPtrSlab[c.pty] := c.sock;
        }
        assert clientSlab[..] == old(clientSlab[..])[c.sock := c];
      }
      assert View().clients == StoreClient(old(View()), c).clients;
      assert View().slot == StoreClient(old(View()), c).slot;
    }

    /** The `new` case of process_task; `pty` is the descriptor a PTY would be opened on. */
    method GreetClient(fd: int, c: Client, message: Option<string>, pty: int) returns (reply: string)
      requires Valid() && 0 <= c.sock < clientSlab.Length && c.pty < clientSlab.Length
      requires 0 < pty < clientSlab.Length && pty !in kernel.open
      requires message.Some? ==> |message.value| <= INPUT_SIZE
      modifies this`kernel, clientSlab, clientPtrSlab
      ensures Valid()
      ensures (kernel, View()) == GreetTables(old(kernel), old(View()), fd, c, Accepts(message), pty)
      ensures reply == if GivesSecret(message) then "<ok>\n" else if message.Some? then "<error>\n" else ""
      ensures GivesSecret(message) ==>
        && kernel.open == old(kernel).open[pty := Pty] && pty in kernel.armed
        && (fd in old(kernel).reg ==> fd in kernel.armed)
        && (c.sock != 0 ==> View().clients == old(View()).clients[c.sock := Client(c.sock, pty, Established)])
        && (c.sock != 0 ==> View().slot == old(View()).slot[c.sock := c.sock][pty := c.sock])
      ensures !GivesSecret(message) ==>
        && kernel.open == old(kernel).open - {c.sock} && c.sock !in kernel.reg
        && (c.sock != 0 ==> View().clients == old(View()).clients[c.sock := c])
    {
      if message.Some? {
        AcceptsExactly(message.value);
      }
      var client := c;
      if !Accepts(message) {
        reply := Refusal(message);
        kernel := kernel.Close(client.sock);
      } else {
        client := client.(pty := pty);
        kernel := kernel.OpenArmed(pty, Pty);
        reply := OK;
        client := client.(state := Established);
        kernel := kernel.Rearm(fd);
      }
      StoreCopy(client);
    }

    method KillClient(fd: int) returns (r: int)
      requires Valid() && 0 <= fd < clientPtrSlab.Length
      modifies this`kernel, clientSlab, clientPtrSlab
      ensures Valid()
      ensures (kernel, View()) == KillTables(old(kernel), old(View()), fd)
      ensures r == 1 || r == -1
      ensures r == -1 ==> View() == old(View()) && kernel.open == old(kernel.open)
      ensures r == -1 ==> var t, k := old(View()), old(kernel);
        kernel == if t.slot[fd] == NONE then k else k.Unregister(t.clients[t.slot[fd]].sock)
      ensures r == 1 <==> Kills(old(kernel), old(View()), fd)
      ensures r == 1 ==> var t := old(View()); var c := t.clients[t.slot[fd]];
        && kernel.open == old(kernel).open - {c.sock, c.pty}
        && View().slot[c.sock] == View().slot[c.pty] == NONE
        && View().clients[c.sock] == Client(-1, t.clients[c.sock].pty, t.clients[c.sock].state)
        && (forall f | 0 <= f < |t.slot| && f != c.sock && f != c.pty :: View().slot[f] == t.slot[f])
        && (forall x | 0 <= x < |t.clients| && x != c.sock :: View().clients[x] == t.clients[x])
        && View().timerFor == t.timerFor
    {
      if clientPtrSlab[fd] == NONE {
        return -1;
      }
      var c := clientSlab[clientPtrSlab[fd]];
      if c.sock !in kernel.reg {
        return -1;
      }
      kernel := kernel.Unregister(c.sock);
      if c.pty !in kernel.reg {
        return -1;
      }
      kernel := kernel.Unregister(c.pty);
      kernel := kernel.Close(c.sock);
      kernel := kernel.Close(c.pty);
      assert kernel == old(kernel).Close(c.sock).Close(c.pty) by {
        assert kernel.reg == old(kernel).Close(c.sock).Close(c.pty).reg;
        assert kernel.armed == old(kernel).Close(c.sock).Close(c.pty).armed;
      }
      clientPtrSlab[c.pty] := NONE;
      clientPtrSlab[c.sock] := NONE;
      clientSlab[c.sock] := clientSlab[c.sock].(sock := -1);
      assert clientPtrSlab[..] == old(clientPtrSlab[..])[c.pty := NONE][c.sock := NONE];
      assert clientSlab[..] == old(clientSlab[..])[c.sock := old(clientSlab[c.sock]).(sock := -1)];
      r := 1;
    }

    /** The timer sweep over the timers that the timer unit returned. */
    method HandleTimerEpollLoop(due: seq<int>) returns (r: int)
      requires Valid() && forall i | 0 <= i < |due| :: due[i] in kernel.timersArmed
      modifies this`kernel
      ensures Valid()
      ensures (kernel, r == 1) == HandleTimers(old(kernel), old(View()), due) && (r == 1 || r == -1)
      ensures View() == old(View()) && forall m | m in due :: m !in kernel.timersArmed
    {
      SweepArmsNone(kernel.Report(due), View(), due);
      kernel := kernel.Report(due);
      var i := 0;
      while i < |due|
        invariant 0 <= i <= |due| && Valid() && View() == old(View())
        invariant Sweep(kernel, View(), due[i..]) == HandleTimers(old(kernel), old(View()), due)
      {
        assert due[i..][0] == due[i] && due[i..][1..] == due[i + 1..];
        var fd := timerSlab[due[i]];
        if clientPtrSlab[fd] != NONE && clientSlab[clientPtrSlab[fd]].state == New {
          if fd !in kernel.reg {
            return -1;
          }
          kernel := kernel.Unregister(fd);
          kernel := kernel.Close(fd);
        }
        if due[i] !in kernel.timers {
          return -1;
        }
        kernel := kernel.Close(due[i]);
        i := i + 1;
      }
      assert due[i..] == [];
      r := 1;
    }
  }
}
