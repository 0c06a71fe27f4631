/** The error classifier: does an exception thrown by an off-thread tick look like a
    thread-safety violation? */
module AsyncErrors {
  import opened JavaStrings
  import opened Wrappers

  /** What the classifier reads of a Throwable: `getMessage()` (possibly null) and the
      fully qualified name of its class. */
  datatype Throwable = Throwable(message: Option<string>, className: string)

  /** `isAsyncError(t)`: false for null; otherwise true when the message is present and
      mentions "async" or "thread", or the class name mentions "AsyncCatcher". The
      source also tests "main thread", which adds nothing because any message containing
      it contains "thread". All tests are case-sensitive. */
  function IsAsyncError(t: Option<Throwable>): (r: bool)
    ensures r <==>
      t.Some? &&
      ((t.value.message.Some? &&
        (IsSubstring("async", t.value.message.value) || IsSubstring("thread", t.value.message.value))) ||
       IsSubstring("AsyncCatcher", t.value.className))
  {
    match t
    case None => false
    case Some(e) =>
      var byMessage :=
        (match e.message
         case None => false
         case Some(msg) =>
           MainThreadMentionsThread(msg);
           Contains(msg, "async") || Contains(msg, "main thread") || Contains(msg, "thread"));
      byMessage || Contains(e.className, "AsyncCatcher")
  }

  /** Any text mentioning "main thread" mentions "thread". */
  lemma MainThreadMentionsThread(msg: string)
    ensures IsSubstring("main thread", msg) ==> IsSubstring("thread", msg)
  {
    if IsSubstring("main thread", msg) {
      assert OccursAt("thread", "main thread", 5);
      SubstringTransitive("thread", "main thread", msg);
    }
  }

  /** The classifier is case-sensitive: a message that spells it "Asynchronous", thrown
      as a plain IllegalStateException, is not recognised. */
  lemma CapitalisedAsyncNotRecognised()
    ensures !IsAsyncError(Some(Throwable(Some("Asynchronous tick!"), "java.lang.IllegalStateException")))
  {
    CapitalisedMessageMentionsNeither();
    IllegalStateIsNoAsyncCatcher();
  }

  lemma CapitalisedMessageMentionsNeither()
    ensures !IsSubstring("async", "Asynchronous tick!") && !IsSubstring("thread", "Asynchronous tick!")
  {
    NotSubstringByLetter("async", "Asynchronous tick!", 'a');
    NotSubstringByLetter("thread", "Asynchronous tick!", 'e');
  }

  lemma IllegalStateIsNoAsyncCatcher()
    ensures !IsSubstring("AsyncCatcher", "java.lang.IllegalStateException")
  {
    NotSubstringByLetter("AsyncCatcher", "java.lang.IllegalStateException", 'y');
  }

  /** A string holding a letter that `s` lacks is no substring of `s`. */
  lemma NotSubstringByLetter(sub: string, s: string, c: char)
    requires c in sub && c !in s
    ensures !IsSubstring(sub, s)
  {
  }

  /** An AsyncCatcher-type exception is recognised whatever its message. */
  lemma AsyncCatcherRecognised(message: Option<string>)
    ensures IsAsyncError(Some(Throwable(message, "org.spigotmc.AsyncCatcher")))
  {
    assert OccursAt("AsyncCatcher", "org.spigotmc.AsyncCatcher", 13);
  }
}
