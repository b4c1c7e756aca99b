/**
 * The queue consumer (queue/Receiver.java). Messages arrive in queue order
 * as (number, bundle) pairs; a message whose bundle is "END" cancels the
 * consumer and closes channel and connection, every other message is
 * handed once to performAction, which acts according to the output mode.
 *
 * performAction parses the bundle text (getBundleFromString) and prints,
 * writes or pushes the parsed bundle, encoded again as XML or for the
 * server. The outputs here record the received text itself: parsing a
 * bundle and encoding it again is taken as the identity on bundles, so
 * the text stands for the bundle that is printed, written or pushed.
 */
module Receiver {
  import FHIRComm

  datatype OutputMode = PRINT_CONSOLE | PRINT_FILE | PRINT_BOTH | PUSH_SERVER

  /** A queue message: its label and its bundle text (or "END"). */
  datatype Delivery = Delivery(number: string, bundle: string)

  /** What the dispatch has produced so far: console lines, files by path, transactions sent to the server. */
  datatype Outputs = Outputs(console: seq<string>, files: map<string, string>, server: seq<string>)

  const NoOutputs := Outputs([], map[], [])

  predicate IsEnd(d: Delivery)
  {
    d.bundle == "END"
  }

  /**
   * What can go wrong while one message is dispatched: the bundle text does
   * not parse, writing its file fails (FHIRComm logs and swallows that), or
   * the server rejects the transaction.
   */
  datatype Fault = NoFault | ParseFails | WriteFails | PushFails

  /** Whether the dispatch of a message in `mode` throws out of performAction (to be caught by handleDelivery). */
  predicate Throws(mode: OutputMode, f: Fault)
  {
    f == ParseFails || (mode == PUSH_SERVER && f == PushFails)
  }

  /** Whether a message with fault `f` gets its file written (in the modes that write files). */
  predicate FileWritten(f: Fault)
  {
    f != ParseFails && f != WriteFails
  }

  /**
   * performAction: the effect of one data message in each output mode. A
   * bundle that does not parse produces nothing; a failed write loses only
   * the file; a rejected transaction adds nothing to the server.
   */
  function Perform(mode: OutputMode, dir: string, o: Outputs, d: Delivery, f: Fault): (r: Outputs)
    ensures f == ParseFails ==> r == o
    ensures mode == PRINT_CONSOLE && f != ParseFails ==> r == o.(console := o.console + [d.bundle])
    ensures mode == PRINT_FILE && FileWritten(f) ==> r == o.(files := o.files[FHIRComm.BundleFilePath(dir, d.number) := d.bundle])
    ensures mode == PRINT_FILE && !FileWritten(f) ==> r == o
    ensures mode == PRINT_BOTH && f != ParseFails ==>
              r.console == o.console + [d.bundle] && r.server == o.server
              && r.files == if FileWritten(f) then o.files[FHIRComm.BundleFilePath(dir, d.number) := d.bundle] else o.files
    ensures mode == PUSH_SERVER && f != ParseFails ==> r == if f == PushFails then o else o.(server := o.server + [d.bundle])
    ensures mode != PUSH_SERVER ==> r.server == o.server
  {
    if f == ParseFails then o
    else
      match mode
      case PRINT_CONSOLE => o.(console := o.console + [d.bundle])
      case PRINT_FILE => if f == WriteFails then o else o.(files := o.files[FHIRComm.BundleFilePath(dir, d.number) := d.bundle])
      case PRINT_BOTH =>
        var printed := o.(console := o.console + [d.bundle]);
        if f == WriteFails then printed
        else printed.(files := printed.files[FHIRComm.BundleFilePath(dir, d.number) := d.bundle])
      case PUSH_SERVER => if f == PushFails then o else o.(server := o.server + [d.bundle])
  }

  /**
   * What consuming queue `q` from `o` produces: every message up to the
   * first END is dispatched, in order, each with its own fault.
   */
  function Run(mode: OutputMode, dir: string, fault: Delivery -> Fault, o: Outputs, q: seq<Delivery>): (r: Outputs)
    ensures o.console <= r.console && o.server <= r.server
    ensures forall path :: path in o.files ==> path in r.files
    decreases |q|
  {
    if q == [] || IsEnd(q[0]) then o else Run(mode, dir, fault, Perform(mode, dir, o, q[0], fault(q[0])), q[1..])
  }

  predicate HasEnd(q: seq<Delivery>)
  {
    exists i :: 0 <= i < |q| && IsEnd(q[i])
  }

  class Consumer {
    const outputMode: OutputMode
    const filePath: string
    /** Consumer registered, channel and connection open. */
    var open: bool
    var outputs: Outputs

    /** receive(): declare the queue and register the consumer. */
    constructor (outputMode: OutputMode, filePath: string)
      ensures this.outputMode == outputMode && this.filePath == filePath
      ensures open && outputs == NoOutputs
    {
      this.outputMode := outputMode;
      this.filePath := filePath;
      open := true;
      outputs := NoOutputs;
    }

    /** performAction: dispatch by output mode; `threw` is an exception leaving it. */
    method PerformAction(d: Delivery, f: Fault) returns (threw: bool)
      modifies this`outputs
      ensures outputs == Perform(outputMode, filePath, old(outputs), d, f)
      ensures threw <==> Throws(outputMode, f)
    {
      if f == ParseFails {
        return true;
      }
      threw := false;
      match outputMode
      case PRINT_CONSOLE =>
        outputs := outputs.(console := outputs.console + [d.bundle]);
      case PRINT_FILE =>
        if f != WriteFails {
          outputs := outputs.(files := outputs.files[FHIRComm.BundleFilePath(filePath, d.number) := d.bundle]);
        }
      case PRINT_BOTH =>
        outputs := outputs.(console := outputs.console + [d.bundle]);
        if f != WriteFails {
          outputs := outputs.(files := outputs.files[FHIRComm.BundleFilePath(filePath, d.number) := d.bundle]);
        }
      case PUSH_SERVER =>
        if f == PushFails {
          threw := true;
        } else {
          outputs := outputs.(server := outputs.server + [d.bundle]);
        }
    }

    /**
     * handleDelivery: END closes the consumer and dispatches nothing; anything
     * else is dispatched, an exception of the dispatch is caught, and the
     * consumer stays open.
     */
    method HandleDelivery(d: Delivery, f: Fault)
      requires open
      modifies this`open, this`outputs
      ensures IsEnd(d) ==> !open && outputs == old(outputs)
      ensures !IsEnd(d) ==> open && outputs == Perform(outputMode, filePath, old(outputs), d, f)
    {
      if d.bundle == "END" {
        open := false;
      } else {
        var threw := PerformAction(d, f);
      }
    }
  }

  /** The broker delivers the queue in order for as long as the consumer is registered. */
  method Deliver(c: Consumer, q: seq<Delivery>, fault: Delivery -> Fault)
    requires c.open
    modifies c
    ensures c.outputs == Run(c.outputMode, c.filePath, fault, old(c.outputs), q)
    ensures c.open <==> !HasEnd(q)
  {
    var i := 0;
    while i < |q| && c.open
      invariant 0 <= i <= |q|
      invariant c.open ==> (forall k :: 0 <= k < i ==> !IsEnd(q[k]))
                           && Run(c.outputMode, c.filePath, fault, old(c.outputs), q)
                              == Run(c.outputMode, c.filePath, fault, c.outputs, q[i..])
      invariant !c.open ==> 0 < i && IsEnd(q[i - 1])
                            && c.outputs == Run(c.outputMode, c.filePath, fault, old(c.outputs), q)
      decreases |q| - i
    {
      assert q[i..][1..] == q[i + 1..];
      c.HandleDelivery(q[i], fault(q[i]));
      i := i + 1;
    }
    assert q[i..] == [] || !c.open;
  }

  /** A message whose bundle does not parse produces nothing, and the messages after it are dispatched as if it were absent. */
  lemma UnparsableIsSkipped(mode: OutputMode, dir: string, fault: Delivery -> Fault, o: Outputs, d: Delivery,
                            q: seq<Delivery>)
    requires !IsEnd(d) && fault(d) == ParseFails
    ensures Run(mode, dir, fault, o, [d] + q) == Run(mode, dir, fault, o, q)
  {
    assert ([d] + q)[1..] == q;
  }

  /** The first END stops the run: it and every message after it are never dispatched. */
  lemma {:induction false} RunStopsAtEnd(mode: OutputMode, dir: string, fault: Delivery -> Fault, o: Outputs,
                                         pre: seq<Delivery>, end: Delivery, post: seq<Delivery>)
    requires IsEnd(end) && forall i :: 0 <= i < |pre| ==> !IsEnd(pre[i])
    ensures Run(mode, dir, fault, o, pre + [end] + post) == Run(mode, dir, fault, o, pre)
    decreases |pre|
  {
    if pre == [] {
      assert (pre + [end] + post)[0] == end;
    } else {
      assert (pre + [end] + post)[1..] == pre[1..] + [end] + post;
      RunStopsAtEnd(mode, dir, fault, Perform(mode, dir, o, pre[0], fault(pre[0])), pre[1..], end, post);
    }
  }

  /** Whether and what is dispatched depends on the bundle fields; the numbers only name the files. */
  lemma {:induction false} TerminationIgnoresNumbers(q: seq<Delivery>, q': seq<Delivery>)
    requires |q| == |q'| && forall i :: 0 <= i < |q| ==> q[i].bundle == q'[i].bundle
    ensures HasEnd(q) <==> HasEnd(q')
  {
    if HasEnd(q) {
      var i :| 0 <= i < |q| && IsEnd(q[i]);
      assert IsEnd(q'[i]);
    }
    if HasEnd(q') {
      var i :| 0 <= i < |q'| && IsEnd(q'[i]);
      assert IsEnd(q[i]);
    }
  }

  function Bundles(q: seq<Delivery>): seq<string>
  {
    if q == [] then [] else [q[0].bundle] + Bundles(q[1..])
  }

  /** On the console, each message before the END whose bundle parses appears exactly once, in queue order. */
  lemma {:induction false} ConsolePrintsEachOnce(dir: string, fault: Delivery -> Fault, o: Outputs, q: seq<Delivery>)
    requires forall i :: 0 <= i < |q| ==> !IsEnd(q[i]) && fault(q[i]) != ParseFails
    ensures Run(PRINT_CONSOLE, dir, fault, o, q).console == o.console + Bundles(q)
    decreases |q|
  {
    if q != [] {
      ConsolePrintsEachOnce(dir, fault, Perform(PRINT_CONSOLE, dir, o, q[0], fault(q[0])), q[1..]);
    }
  }

  /** A file no later message is written to keeps its content, or stays absent. */
  lemma {:induction false} RunKeepsFile(dir: string, fault: Delivery -> Fault, o: Outputs, q: seq<Delivery>, path: string)
    requires forall i :: 0 <= i < |q| ==> FHIRComm.BundleFilePath(dir, q[i].number) != path
    ensures path in Run(PRINT_FILE, dir, fault, o, q).files <==> path in o.files
    ensures path in o.files ==> Run(PRINT_FILE, dir, fault, o, q).files[path] == o.files[path]
    decreases |q|
  {
    if q != [] && !IsEnd(q[0]) {
      RunKeepsFile(dir, fault, Perform(PRINT_FILE, dir, o, q[0], fault(q[0])), q[1..], path);
    }
  }

  /**
   * In file mode, when the labels before the END are pairwise distinct and
   * none is "0", every such message whose bundle parses and whose write
   * succeeds ends up in its own file; the file of any other is left as it was.
   */
  lemma {:induction false} FilesHoldEachBundle(dir: string, fault: Delivery -> Fault, o: Outputs, q: seq<Delivery>)
    requires forall i :: 0 <= i < |q| ==> !IsEnd(q[i]) && q[i].number != "0"
    requires forall i, j :: 0 <= i < j < |q| ==> q[i].number != q[j].number
    ensures forall i :: 0 <= i < |q| && FileWritten(fault(q[i])) ==>
              FHIRComm.BundleFilePath(dir, q[i].number) in Run(PRINT_FILE, dir, fault, o, q).files
              && Run(PRINT_FILE, dir, fault, o, q).files[FHIRComm.BundleFilePath(dir, q[i].number)] == q[i].bundle
    ensures forall i :: 0 <= i < |q| && !FileWritten(fault(q[i])) ==>
              var path := FHIRComm.BundleFilePath(dir, q[i].number);
              (path in Run(PRINT_FILE, dir, fault, o, q).files <==> path in o.files)
    decreases |q|
  {
    if q != [] {
      var o' := Perform(PRINT_FILE, dir, o, q[0], fault(q[0]));
      var rest := q[1..];
      FilesHoldEachBundle(dir, fault, o', rest);
      var path := FHIRComm.BundleFilePath(dir, q[0].number);
      forall i | 0 <= i < |rest|
        ensures FHIRComm.BundleFilePath(dir, rest[i].number) != path
      {
        FHIRComm.PathsDistinct(dir, rest[i].number, q[0].number);
      }
      RunKeepsFile(dir, fault, o', rest, path);
      forall i | 0 < i < |q|
        ensures q[i] == rest[i - 1]
      {
      }
      forall i | 0 < i < |q| && !FileWritten(fault(q[i]))
        ensures FHIRComm.BundleFilePath(dir, q[i].number) in o'.files <==> FHIRComm.BundleFilePath(dir, q[i].number) in o.files
      {
        FHIRComm.PathsDistinct(dir, q[i].number, q[0].number);
      }
    }
  }
}
