/** Two of the kernel's services as it uses them: mailboxes and budget counters. */
module KernelServices {
  import opened Common
  import opened Heap
  import opened KernelModel

  class MailboxManager {
    var boxes: map<Pid, seq<Value>>

    constructor ()
      ensures boxes == map[]
    {
      boxes := map[];
    }

    /** An existing mailbox keeps its messages. */
    method Create(p: Pid)
      modifies this
      ensures boxes == if p in old(boxes) then old(boxes) else old(boxes)[p := []]
    {
      if p !in boxes {
        boxes := boxes[p := []];
      }
    }

    method Delete(p: Pid)
      modifies this
      ensures boxes == old(boxes) - {p}
    {
      boxes := boxes - {p};
    }

    method Exists(p: Pid) returns (exists_: bool)
      ensures exists_ <==> p in boxes
    {
      exists_ := p in boxes;
    }

    /** Appends to the recipient's mailbox; fails when there is none. */
    method Send(to: Pid, message: Value) returns (ok: bool)
      modifies this
      ensures ok <==> to in old(boxes)
      ensures boxes == if ok then old(boxes)[to := old(boxes)[to] + [message]] else old(boxes)
    {
      ok := to in boxes;
      if ok {
        boxes := boxes[to := boxes[to] + [message]];
      }
    }

    /** Takes the oldest message. */
    method Receive(p: Pid) returns (message: Option<Value>)
      modifies this
      ensures p in old(boxes) && old(boxes)[p] != [] ==>
        message == Some(old(boxes)[p][0]) && boxes == old(boxes)[p := old(boxes)[p][1..]]
      ensures p !in old(boxes) || old(boxes)[p] == [] ==> message == None && boxes == old(boxes)
    {
      if p !in boxes || boxes[p] == [] {
        return None;
      }
      message := Some(boxes[p][0]);
      boxes := boxes[p := boxes[p][1..]];
    }

    method Pending(p: Pid) returns (n: nat)
      ensures n == if p in boxes then |boxes[p]| else 0
    {
      n := if p in boxes then |boxes[p]| else 0;
    }
  }

  class BudgetTracker {
    var used: map<Pid, Usage>

    constructor ()
      ensures used == map[]
    {
      used := map[];
    }

    /** Reading a process's usage creates its record. */
    method UsageFor(p: Pid) returns (u: Usage)
      modifies this
      ensures u == (if p in old(used) then old(used)[p] else NoUsage) && used == old(used)[p := u]
    {
      if p !in used {
        used := used[p := NoUsage];
      }
      u := used[p];
      assert used == used[p := u];
    }

    method MayDispatch(p: Pid, budget: Budget) returns (ok: bool)
      modifies this
      ensures var u := if p in old(used) then old(used)[p] else NoUsage;
        && used == old(used)[p := u] && (ok <==> CanDispatch(u, budget))
        && (ok <==>
              u.tokens < budget.maxTokens && u.tools < budget.maxTools && u.cost < budget.maxCost
              && u.retries <= budget.maxRetries)
    {
      var u := UsageFor(p);
      if u.tokens >= budget.maxTokens {
        return false;
      }
      if u.tools >= budget.maxTools {
        return false;
      }
      if u.cost >= budget.maxCost {
        return false;
      }
      if u.retries > budget.maxRetries {
        return false;
      }
      ok := true;
    }

    method RecordExecution(p: Pid, tokens: nat, tools: nat, cost: real)
      modifies this
      ensures var u := if p in old(used) then old(used)[p] else NoUsage;
        used == old(used)[p := u.(tokens := u.tokens + tokens, tools := u.tools + tools, cost := u.cost + cost)]
    {
      var u := UsageFor(p);
      used := used[p := u.(tokens := u.tokens + tokens, tools := u.tools + tools, cost := u.cost + cost)];
    }

    method RecordRetry(p: Pid)
      modifies this
      ensures var u := if p in old(used) then old(used)[p] else NoUsage;
        used == old(used)[p := u.(retries := u.retries + 1)]
    {
      var u := UsageFor(p);
      used := used[p := u.(retries := u.retries + 1)];
    }

    method Overwrite(p: Pid, u: Usage)
      modifies this
      ensures used == old(used)[p := u]
    {
      used := used[p := u];
    }

    method Clear(p: Pid)
      modifies this
      ensures used == old(used) - {p}
    {
      used := used - {p};
    }
  }
}
