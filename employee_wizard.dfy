/** The employee registration wizard as a whole: the paths a run of successful saves visits,
  * from sign-up on, and where the wizard flag is lost. */
module EmployeeWizard {
  import opened Wrappers
  import opened Web
  import opened Onboarding
  import UrlCodec
  import Register
  import EmployeeBasic
  import EmployeeCategories
  import EmployeeContacts
  import EmployeeAdditional
  import EmployeeUploadResume
  import EmployeeUploadPhoto

  /** Where the step after `path` goes once it is saved. */
  function Following(path: string, step: string): string {
    After(UrlCodec.SearchOf(path), step)
  }

  /** Signing up as anything but a company lands on the first step inside the wizard. */
  lemma SignUpStartsWizard(role: Option<string>)
    requires role != Some(RoleCompany)
    ensures Register.Start(role) == "/profile/employee/basic" + "?" + Flag
    ensures RegisterFlow(UrlCodec.SearchOf(Register.Start(role)))
  {
    assert Register.EmployeeStart == "/profile/employee/basic" + "?" + Flag;
    FlagKept("/profile/employee/basic");
  }

  /** Inside the wizard, each of these steps passes the flag on to the next one. */
  lemma {:induction false} FlagPassedOn(step: string)
    requires '?' !in step
    ensures RegisterFlow(UrlCodec.SearchOf(step + "?" + Flag))
    ensures Following(step + "?" + Flag, EmployeeBasic.NextStep) == EmployeeBasic.NextStep + "?" + Flag
    ensures Following(step + "?" + Flag, EmployeeCategories.NextStep) == EmployeeCategories.NextStep + "?" + Flag
    ensures Following(step + "?" + Flag, EmployeeAdditional.NextStep) == EmployeeAdditional.NextStep + "?" + Flag
    ensures Following(step + "?" + Flag, EmployeeUploadResume.NextStep) == EmployeeUploadResume.NextStep + "?" + Flag
  {
    FlagKept(step);
  }

  lemma BasicToCategories()
    ensures Following(Register.EmployeeStart, EmployeeBasic.NextStep) == EmployeeBasic.NextStep + "?" + Flag
  {
    SignUpStartsWizard(None);
  }

  lemma CategoriesToContacts()
    ensures Following(EmployeeBasic.NextStep + "?" + Flag, EmployeeCategories.NextStep) == EmployeeCategories.NextStep + "?" + Flag
  {
    assert '?' !in EmployeeBasic.NextStep;
    FlagKept(EmployeeBasic.NextStep);
  }

  lemma ContactsDropsFlag()
    ensures !RegisterFlow(UrlCodec.SearchOf(EmployeeContacts.NextStep))
    ensures Following(EmployeeContacts.NextStep, EmployeeAdditional.NextStep) == ProfilePath
  {
    assert '?' !in EmployeeContacts.NextStep;
    FlagDropped(EmployeeContacts.NextStep);
  }

  /** The run as written: sign-up, basic data and categories keep the flag, but the contacts
    * step moves on without it, so the additional-information step takes itself to be opened
    * from the profile and goes back there; the résumé and photo steps are never reached. */
  lemma RegistrationRun()
    ensures var categories := Following(Register.EmployeeStart, EmployeeBasic.NextStep);
            var contacts := Following(categories, EmployeeCategories.NextStep);
            && categories == EmployeeBasic.NextStep + "?" + Flag
            && contacts == EmployeeCategories.NextStep + "?" + Flag
            && !RegisterFlow(UrlCodec.SearchOf(EmployeeContacts.NextStep))
            && Following(EmployeeContacts.NextStep, EmployeeAdditional.NextStep) == ProfilePath
  {
    BasicToCategories();
    CategoriesToContacts();
    ContactsDropsFlag();
  }

  /** The evidently intended contacts step: like every other step, it passes the wizard flag on. */
  function IntendedContactsNext(path: string): (r: string)
    ensures RegisterFlow(UrlCodec.SearchOf(path)) ==> r == EmployeeContacts.NextStep + "?" + Flag
    ensures !RegisterFlow(UrlCodec.SearchOf(path)) ==> r == ProfilePath
  {
    Following(path, EmployeeContacts.NextStep)
  }

  lemma IntendedContactsToAdditional()
    ensures IntendedContactsNext(EmployeeCategories.NextStep + "?" + Flag) == EmployeeContacts.NextStep + "?" + Flag
  {
    assert '?' !in EmployeeCategories.NextStep;
    FlagKept(EmployeeCategories.NextStep);
  }

  lemma AdditionalToResume()
    ensures Following(EmployeeContacts.NextStep + "?" + Flag, EmployeeAdditional.NextStep) == EmployeeAdditional.NextStep + "?" + Flag
  {
    assert '?' !in EmployeeContacts.NextStep;
    FlagKept(EmployeeContacts.NextStep);
  }

  lemma ResumeToPhoto()
    ensures Following(EmployeeAdditional.NextStep + "?" + Flag, EmployeeUploadResume.NextStep) == EmployeeUploadResume.NextStep + "?" + Flag
    ensures RegisterFlow(UrlCodec.SearchOf(EmployeeUploadResume.NextStep + "?" + Flag))
  {
    assert '?' !in EmployeeAdditional.NextStep;
    FlagKept(EmployeeAdditional.NextStep);
    assert '?' !in EmployeeUploadResume.NextStep;
    FlagKept(EmployeeUploadResume.NextStep);
  }

  /** With the intended contacts step, sign-up goes through every step, the résumé and photo
    * ones included, each inside the wizard, so the photo step ends on the home page. */
  lemma IntendedRegistrationRun()
    ensures var categories := Following(Register.EmployeeStart, EmployeeBasic.NextStep);
            var contacts := Following(categories, EmployeeCategories.NextStep);
            var additional := IntendedContactsNext(contacts);
            var resume := Following(additional, EmployeeAdditional.NextStep);
            var photo := Following(resume, EmployeeUploadResume.NextStep);
            && additional == EmployeeContacts.NextStep + "?" + Flag
            && resume == EmployeeAdditional.NextStep + "?" + Flag
            && photo == EmployeeUploadResume.NextStep + "?" + Flag
            && RegisterFlow(UrlCodec.SearchOf(photo))
  {
    BasicToCategories();
    CategoriesToContacts();
    IntendedContactsToAdditional();
    AdditionalToResume();
    ResumeToPhoto();
  }

  /** Inside the wizard the photo step ends on the home page. */
  lemma {:induction false} PhotoEndsWizard(step: string)
    requires '?' !in step
    ensures RegisterFlow(UrlCodec.SearchOf(step + "?" + Flag))
    ensures (if RegisterFlow(UrlCodec.SearchOf(step + "?" + Flag)) then EmployeeUploadPhoto.HomePath else ProfilePath) == "/"
  {
    FlagKept(step);
  }
}
