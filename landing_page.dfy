/** The landing page that hosts the wizard.  Its only state is the flag
    `showLeadForm`: while it is set, the page renders the form instead of its
    own content, and closing the form clears it.  Each time the flag turns on,
    a new form component is mounted, so a reopened form starts afresh. */
module LandingPage {
  import opened LeadForm

  /** What the page renders: its own promotional content, or the form alone
      at the form's current step (the form replaces the page, it does not
      overlay it). */
  datatype Screen = Promotion | FormOnly(step: int)

  class Page {
    var showLeadForm: bool
    /** The mounted form component, present exactly while `showLeadForm`. */
    var leadForm: Wizard?

    ghost predicate Valid()
      reads this, leadForm
    {
      (showLeadForm <==> leadForm != null) &&
      (leadForm != null ==> leadForm.Valid())
    }

    /** The page starts on its own content, with no form mounted. */
    constructor ()
      ensures Valid()
      ensures !showLeadForm && leadForm == null
    {
      showLeadForm := false;
      leadForm := null;
    }

    /** The rendered screen: the form, and nothing else, exactly while
        `showLeadForm` is set. */
    function Rendered(): (sc: Screen)
      reads this, leadForm
      requires Valid()
      ensures sc.FormOnly? <==> showLeadForm
      ensures sc.FormOnly? ==> sc.step == leadForm.step && 1 <= sc.step <= ThankYouStep
    {
      if showLeadForm then FormOnly(leadForm.step) else Promotion
    }

    /** The "Get Quote" button.  It is part of the page's own content, so it
        can be pressed only while the form is hidden; pressing it sets
        `showLeadForm`, which mounts a new form at step 1 with an empty
        record. */
    method GetQuote()
      requires Valid()
      requires !showLeadForm
      modifies this
      ensures Valid()
      ensures showLeadForm
      ensures fresh(leadForm)
      ensures leadForm.Snapshot() == Fresh()
    {
      showLeadForm := true;
      leadForm := new Wizard();
    }

    /** The form's `onClose` callback, bound to its header Close button and to
        the thank-you screen's Close button: clears `showLeadForm`, which
        unmounts the form and discards its state. */
    method Close()
      requires Valid()
      modifies this
      ensures Valid()
      ensures !showLeadForm && leadForm == null
      ensures Rendered() == Promotion
    {
      showLeadForm := false;
      leadForm := null;
    }
  }

  /** Closing an open form at any step and pressing "Get Quote" again gives a
      different form at step 1 with every field empty; nothing of the closed
      session survives. */
  method CloseThenReopen(page: Page)
    requires page.Valid() && page.showLeadForm
    modifies page
    ensures page.Valid() && page.showLeadForm
    ensures page.leadForm != old(page.leadForm)
    ensures page.leadForm.step == 1
    ensures forall f :: Get(page.leadForm.formData, f) == ""
  {
    page.Close();
    page.GetQuote();
  }
}
