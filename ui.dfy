/** What the core does to the window, as a log of events: text inserted at the end of the
    output widget, a modal message box, or a change of the trigger button's state and label.
    The widget's `see`/`update` calls only scroll and repaint, and have no event. */
module Ui {

  /** `messagebox.showinfo`, `showwarning` and `showerror`. */
  datatype Severity = Info | Warning | Error

  datatype Notice = Notice(severity: Severity, title: string, message: string)

  datatype UiEvent =
    | Insert(text: string)                     // output_widget.insert(tk.END, text)
    | Dialog(notice: Notice)                   // one message box
    | Configure(enabled: bool, caption: string)  // download_button.config(state=..., text=...)

  /** One insertion per line, in order. */
  function Inserts(lines: seq<string>): (r: seq<UiEvent>)
    ensures |r| == |lines|
    ensures forall i :: 0 <= i < |lines| ==> r[i] == Insert(lines[i])
  {
    if lines == [] then [] else [Insert(lines[0])] + Inserts(lines[1..])
  }

  /** The texts inserted into the widget, in order: what the widget shows. */
  function Output(events: seq<UiEvent>): seq<string> {
    if events == [] then []
    else (if events[0].Insert? then [events[0].text] else []) + Output(events[1..])
  }

  /** The message boxes shown, in order. */
  function Dialogs(events: seq<UiEvent>): seq<Notice> {
    if events == [] then []
    else (if events[0].Dialog? then [events[0].notice] else []) + Dialogs(events[1..])
  }

  /** The changes made to the trigger button, in order. */
  function ButtonChanges(events: seq<UiEvent>): seq<UiEvent> {
    if events == [] then []
    else (if events[0].Configure? then [events[0]] else []) + ButtonChanges(events[1..])
  }

  /** The projections of a log split at any point are those of its two parts, joined. */
  lemma OutputAppend(a: seq<UiEvent>, b: seq<UiEvent>)
    ensures Output(a + b) == Output(a) + Output(b)
    ensures Dialogs(a + b) == Dialogs(a) + Dialogs(b)
    ensures ButtonChanges(a + b) == ButtonChanges(a) + ButtonChanges(b)
  {
    OutputOnlyAppend(a, b);
    DialogsAppend(a, b);
    ButtonChangesAppend(a, b);
  }

  lemma {:induction false} OutputOnlyAppend(a: seq<UiEvent>, b: seq<UiEvent>)
    ensures Output(a + b) == Output(a) + Output(b)
  {
    if a == [] {
      assert a + b == b;
    } else {
      assert (a + b)[0] == a[0];
      assert (a + b)[1..] == a[1..] + b;
      OutputOnlyAppend(a[1..], b);
    }
  }

  lemma {:induction false} DialogsAppend(a: seq<UiEvent>, b: seq<UiEvent>)
    ensures Dialogs(a + b) == Dialogs(a) + Dialogs(b)
  {
    if a == [] {
      assert a + b == b;
    } else {
      assert (a + b)[0] == a[0];
      assert (a + b)[1..] == a[1..] + b;
      DialogsAppend(a[1..], b);
    }
  }

  lemma {:induction false} ButtonChangesAppend(a: seq<UiEvent>, b: seq<UiEvent>)
    ensures ButtonChanges(a + b) == ButtonChanges(a) + ButtonChanges(b)
  {
    if a == [] {
      assert a + b == b;
    } else {
      assert (a + b)[0] == a[0];
      assert (a + b)[1..] == a[1..] + b;
      ButtonChangesAppend(a[1..], b);
    }
  }

  /** Inserting lines one by one shows exactly those lines, with no message box and no
      change to the button. */
  lemma {:induction false} InsertsShow(lines: seq<string>)
    ensures Output(Inserts(lines)) == lines
    ensures Dialogs(Inserts(lines)) == []
    ensures ButtonChanges(Inserts(lines)) == []
  {
    if lines != [] {
      assert Inserts(lines)[1..] == Inserts(lines[1..]);
      InsertsShow(lines[1..]);
    }
  }

  lemma {:induction false} InsertsAppend(a: seq<string>, b: seq<string>)
    ensures Inserts(a + b) == Inserts(a) + Inserts(b)
  {
    if a == [] {
      assert a + b == b;
    } else {
      assert (a + b)[0] == a[0];
      assert (a + b)[1..] == a[1..] + b;
      InsertsAppend(a[1..], b);
    }
  }
}
