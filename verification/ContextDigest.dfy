/** The digest a human approves: a hash over thirteen length-prefixed components.
    The broker model uses the components themselves; this module justifies it. */
module ContextDigest {
  import opened ByteStrings
  import opened Domain
  import opened Broker

  function Components(d: Digest): (items: seq<Bytes>)
    ensures |items| == 13
  {
    [ d.agent, d.credential, ActionText(d.action),
      d.binding.topOrigin.text, d.binding.frameOrigin.text, d.binding.session, d.binding.extensionKey,
      BigEndian(d.binding.tab, 4), BigEndian(d.binding.frame, 4), d.binding.document, BigEndian(d.binding.epoch, 8),
      d.recipeHash, d.policyHash ]
  }

  /** The Rust widths: `u32` tab and frame, `u64` epoch, `usize` lengths. */
  ghost predicate Sized(d: Digest) {
    && d.binding.tab < TWO_32 && d.binding.frame < TWO_32 && d.binding.epoch < TWO_64
    && forall i :: 0 <= i < 13 ==> Fits(Components(d)[i])
  }

  /** `compute_context_digest`: the hasher's input is built up item by item. */
  method ComputeContextDigest(sha: Bytes -> Bytes, components: seq<Bytes>) returns (digest: Bytes)
    ensures digest == sha(LengthPrefixedAll(components))
  {
    var hashed: Bytes := [];
    for i := 0 to |components|
      invariant hashed == LengthPrefixedAll(components[..i])
    {
      LengthPrefixedAllSnoc(components[..i], components[i]);
      assert components[..i + 1] == components[..i] + [components[i]];
      hashed := hashed + BigEndian(|components[i]|, 8);
      hashed := hashed + components[i];
    }
    assert components[..|components|] == components;
    digest := sha(hashed);
  }

  /** Equal pre-images, equal components: all thirteen of them. */
  lemma SamePreimageSameContext(d: Digest, e: Digest)
    requires Sized(d) && Sized(e)
    ensures LengthPrefixedAll(Components(d)) == LengthPrefixedAll(Components(e)) <==> d == e
  {
    LengthPrefixedAllInjective(Components(d), Components(e));
    if Components(d) == Components(e) {
      SameComponents(d, e);
    }
  }

  lemma SameComponents(d: Digest, e: Digest)
    requires d.binding.tab < TWO_32 && d.binding.frame < TWO_32 && d.binding.epoch < TWO_64
    requires e.binding.tab < TWO_32 && e.binding.frame < TWO_32 && e.binding.epoch < TWO_64
    requires Components(d) == Components(e)
    ensures d == e
  {
    hide ActionText, BigEndian;
    var x, y := Components(d), Components(e);
    assert x[0] == y[0] && x[1] == y[1] && x[2] == y[2] && x[3] == y[3] && x[4] == y[4] && x[5] == y[5] && x[6] == y[6];
    assert x[7] == y[7] && x[8] == y[8] && x[9] == y[9] && x[10] == y[10] && x[11] == y[11] && x[12] == y[12];
    Pow256Values();
    ActionTextInjective(d.action, e.action);
    BigEndianInjective(d.binding.tab, e.binding.tab, 4);
    BigEndianInjective(d.binding.frame, e.binding.frame, 4);
    BigEndianInjective(d.binding.epoch, e.binding.epoch, 8);
  }

  /** Two authorisations share an approvable digest exactly when agent,
      credential, action, position, recipe and policy agree; the digest says
      nothing about the request id. */
  lemma SameDigestSameAuthority(a: Authorization, b: Authorization)
    requires Sized(DigestOf(a)) && Sized(DigestOf(b))
    ensures LengthPrefixedAll(Components(DigestOf(a))) == LengthPrefixedAll(Components(DigestOf(b)))
            <==> a.binding == b.binding
                 && a.subject == b.subject.(request := a.subject.request, recipe := a.subject.recipe)
  {
    hide Components, Sized, LengthPrefixedAll;
    SamePreimageSameContext(DigestOf(a), DigestOf(b));
  }
}
