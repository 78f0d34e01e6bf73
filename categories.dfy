/**
 * The category mapping of src/data_cleaner.py (`_clean_category`), in its
 * insertion order, with the facts about its keys and values that make every
 * canonical category a fixed point of the cleaner.
 */
module Categories {
  import opened Text

  /** Entry `k` of the category mapping, in its insertion order. */
  function CategoryEntry(k: nat): (string, string) {
    if k == 0 then ("plan change", "Plan Change")
    else if k == 1 then ("device activation", "Device Activation")
    else if k == 2 then ("billing dispute", "Billing Dispute")
    else if k == 3 then ("device purchase", "Device Purchase")
    else if k == 4 then ("account management", "Account Management")
    else if k == 5 then ("promotional offers", "Promotional Offers")
    else if k == 6 then ("data usage tracking", "Data Usage Tracking")
    else if k == 7 then ("device upgrade", "Device Upgrade")
    else if k == 8 then ("auto-pay management", "Auto-Pay Management")
    else if k == 9 then ("auto pay management", "Auto-Pay Management")
    else if k == 10 then ("sim card activation", "SIM Card Activation")
    else if k == 11 then ("promotional pricing", "Promotional Pricing")
    else if k == 12 then ("device return", "Device Return")
    else if k == 13 then ("data usage alerts", "Data Usage Alerts")
    else if k == 14 then ("service commands", "Service Commands")
    else ("balance inquiry", "Balance Inquiry")
  }

  /** The category mapping, in its insertion order. */
  const CategoryTable: seq<(string, string)> := [
    CategoryEntry(0), CategoryEntry(1), CategoryEntry(2), CategoryEntry(3),
    CategoryEntry(4), CategoryEntry(5), CategoryEntry(6), CategoryEntry(7),
    CategoryEntry(8), CategoryEntry(9), CategoryEntry(10), CategoryEntry(11),
    CategoryEntry(12), CategoryEntry(13), CategoryEntry(14), CategoryEntry(15)]

  /** A name that the contamination patterns cannot touch: trimmed, without ':', ending in a lower-case letter other than h, m and w. */
  predicate PlainName(v: string) {
    v != [] && Trimmed(v) && ':' !in v && IsLower(v[|v| - 1]) && v[|v| - 1] !in "hmw"
  }

  lemma CategoryValuesNonEmpty()
    ensures forall k :: 0 <= k < |CategoryTable| ==> CategoryTable[k].1 != []
  {
    CategoryValuesLong(0, 8);
    CategoryValuesLong(8, 16);
  }

  lemma CategoryValuesLong(lo: nat, hi: nat)
    requires (lo, hi) == (0, 8) || (lo, hi) == (8, 16)
    ensures forall k :: lo <= k < hi ==> |CategoryTable[k].1| >= 11
  {
  }

  // Each canonical category value is a plain name and, lower-cased, its
  // own key, and no earlier key occurs in that key. The facts are proved
  // on the literals one pair of keys at a time, then carried over to the
  // table's entries.

  lemma PlanChangeLiteral()
    ensures PlainName("Plan Change") && LowerStr("Plan Change") == "plan change"
  {
  }

  lemma PlanChangeValue()
    ensures PlainName(CategoryTable[0].1) && LowerStr(CategoryTable[0].1) == CategoryTable[0].0
  {
    PlanChangeLiteral();
  }

  lemma DeviceActivationLiteral()
    ensures PlainName("Device Activation") && LowerStr("Device Activation") == "device activation"
  {
  }

  lemma DeviceActivationValue()
    ensures PlainName(CategoryTable[1].1) && LowerStr(CategoryTable[1].1) == CategoryTable[1].0
  {
    DeviceActivationLiteral();
  }

  lemma DeviceActivationSkips0()
    ensures !HasFrom("device activation", "plan change", 0)
  {
    MissingCharNoMatch("device activation", "plan change", 'p');
  }

  lemma DeviceActivationFirst()
    ensures forall j :: 0 <= j < 1 ==> !HasFrom(CategoryTable[1].0, CategoryTable[j].0, 0)
  {
    DeviceActivationSkips0();
  }

  lemma BillingDisputeLiteral()
    ensures PlainName("Billing Dispute") && LowerStr("Billing Dispute") == "billing dispute"
  {
  }

  lemma BillingDisputeValue()
    ensures PlainName(CategoryTable[2].1) && LowerStr(CategoryTable[2].1) == CategoryTable[2].0
  {
    BillingDisputeLiteral();
  }

  lemma BillingDisputeSkips0()
    ensures !HasFrom("billing dispute", "plan change", 0)
  {
    MissingCharNoMatch("billing dispute", "plan change", 'a');
  }

  lemma BillingDisputeSkips1()
    ensures !HasFrom("billing dispute", "device activation", 0)
  {
    MissingCharNoMatch("billing dispute", "device activation", 'v');
  }

  lemma BillingDisputeFirst()
    ensures forall j :: 0 <= j < 2 ==> !HasFrom(CategoryTable[2].0, CategoryTable[j].0, 0)
  {
    BillingDisputeSkips0();
    BillingDisputeSkips1();
  }

  lemma DevicePurchaseLiteral()
    ensures PlainName("Device Purchase") && LowerStr("Device Purchase") == "device purchase"
  {
  }

  lemma DevicePurchaseValue()
    ensures PlainName(CategoryTable[3].1) && LowerStr(CategoryTable[3].1) == CategoryTable[3].0
  {
    DevicePurchaseLiteral();
  }

  lemma DevicePurchaseSkips0()
    ensures !HasFrom("device purchase", "plan change", 0)
  {
    MissingCharNoMatch("device purchase", "plan change", 'l');
  }

  lemma DevicePurchaseSkips1()
    ensures !HasFrom("device purchase", "device activation", 0)
  {
    MissingCharNoMatch("device purchase", "device activation", 't');
  }

  lemma DevicePurchaseSkips2()
    ensures !HasFrom("device purchase", "billing dispute", 0)
  {
    MissingCharNoMatch("device purchase", "billing dispute", 'b');
  }

  lemma DevicePurchaseFirst()
    ensures forall j :: 0 <= j < 3 ==> !HasFrom(CategoryTable[3].0, CategoryTable[j].0, 0)
  {
    DevicePurchaseSkips0();
    DevicePurchaseSkips1();
    DevicePurchaseSkips2();
  }

  lemma AccountManagementLiteral()
    ensures PlainName("Account Management") && LowerStr("Account Management") == "account management"
  {
  }

  lemma AccountManagementValue()
    ensures PlainName(CategoryTable[4].1) && LowerStr(CategoryTable[4].1) == CategoryTable[4].0
  {
    AccountManagementLiteral();
  }

  lemma AccountManagementSkips0()
    ensures !HasFrom("account management", "plan change", 0)
  {
    MissingCharNoMatch("account management", "plan change", 'p');
  }

  lemma AccountManagementSkips1()
    ensures !HasFrom("account management", "device activation", 0)
  {
    MissingCharNoMatch("account management", "device activation", 'd');
  }

  lemma AccountManagementSkips2()
    ensures !HasFrom("account management", "billing dispute", 0)
  {
    MissingCharNoMatch("account management", "billing dispute", 'b');
  }

  lemma AccountManagementSkips3()
    ensures !HasFrom("account management", "device purchase", 0)
  {
    MissingCharNoMatch("account management", "device purchase", 'd');
  }

  lemma AccountManagementFirst()
    ensures forall j :: 0 <= j < 4 ==> !HasFrom(CategoryTable[4].0, CategoryTable[j].0, 0)
  {
    AccountManagementSkips0();
    AccountManagementSkips1();
    AccountManagementSkips2();
    AccountManagementSkips3();
  }

  lemma PromotionalOffersLiteral()
    ensures PlainName("Promotional Offers") && LowerStr("Promotional Offers") == "promotional offers"
  {
  }

  lemma PromotionalOffersValue()
    ensures PlainName(CategoryTable[5].1) && LowerStr(CategoryTable[5].1) == CategoryTable[5].0
  {
    PromotionalOffersLiteral();
  }

  lemma PromotionalOffersSkips0()
    ensures !HasFrom("promotional offers", "plan change", 0)
  {
    MissingCharNoMatch("promotional offers", "plan change", 'c');
  }

  lemma PromotionalOffersSkips1()
    ensures !HasFrom("promotional offers", "device activation", 0)
  {
    MissingCharNoMatch("promotional offers", "device activation", 'd');
  }

  lemma PromotionalOffersSkips2()
    ensures !HasFrom("promotional offers", "billing dispute", 0)
  {
    MissingCharNoMatch("promotional offers", "billing dispute", 'b');
  }

  lemma PromotionalOffersSkips3()
    ensures !HasFrom("promotional offers", "device purchase", 0)
  {
    MissingCharNoMatch("promotional offers", "device purchase", 'd');
  }

  lemma PromotionalOffersSkips4()
    ensures !HasFrom("promotional offers", "account management", 0)
  {
    MissingCharNoMatch("promotional offers", "account management", 'c');
  }

  lemma PromotionalOffersFirst()
    ensures forall j :: 0 <= j < 5 ==> !HasFrom(CategoryTable[5].0, CategoryTable[j].0, 0)
  {
    PromotionalOffersSkips0();
    PromotionalOffersSkips1();
    PromotionalOffersSkips2();
    PromotionalOffersSkips3();
    PromotionalOffersSkips4();
  }

  lemma DataUsageTrackingLiteral()
    ensures PlainName("Data Usage Tracking") && LowerStr("Data Usage Tracking") == "data usage tracking"
  {
  }

  lemma DataUsageTrackingValue()
    ensures PlainName(CategoryTable[6].1) && LowerStr(CategoryTable[6].1) == CategoryTable[6].0
  {
    DataUsageTrackingLiteral();
  }

  lemma DataUsageTrackingSkips0()
    ensures !HasFrom("data usage tracking", "plan change", 0)
  {
    MissingCharNoMatch("data usage tracking", "plan change", 'p');
  }

  lemma DataUsageTrackingSkips1()
    ensures !HasFrom("data usage tracking", "device activation", 0)
  {
    MissingCharNoMatch("data usage tracking", "device activation", 'v');
  }

  lemma DataUsageTrackingSkips2()
    ensures !HasFrom("data usage tracking", "billing dispute", 0)
  {
    MissingCharNoMatch("data usage tracking", "billing dispute", 'b');
  }

  lemma DataUsageTrackingSkips3()
    ensures !HasFrom("data usage tracking", "device purchase", 0)
  {
    MissingCharNoMatch("data usage tracking", "device purchase", 'v');
  }

  lemma DataUsageTrackingSkips4()
    ensures !HasFrom("data usage tracking", "account management", 0)
  {
    MissingCharNoMatch("data usage tracking", "account management", 'o');
  }

  lemma DataUsageTrackingSkips5()
    ensures !HasFrom("data usage tracking", "promotional offers", 0)
  {
    MissingCharNoMatch("data usage tracking", "promotional offers", 'p');
  }

  lemma DataUsageTrackingFirst1()
    ensures forall j :: 0 <= j < 3 ==> !HasFrom(CategoryTable[6].0, CategoryTable[j].0, 0)
  {
    DataUsageTrackingSkips0();
    DataUsageTrackingSkips1();
    DataUsageTrackingSkips2();
  }

  lemma DataUsageTrackingFirst2()
    ensures forall j :: 3 <= j < 6 ==> !HasFrom(CategoryTable[6].0, CategoryTable[j].0, 0)
  {
    DataUsageTrackingSkips3();
    DataUsageTrackingSkips4();
    DataUsageTrackingSkips5();
  }

  lemma DataUsageTrackingFirst()
    ensures forall j :: 0 <= j < 6 ==> !HasFrom(CategoryTable[6].0, CategoryTable[j].0, 0)
  {
    DataUsageTrackingFirst1();
    DataUsageTrackingFirst2();
  }

  lemma DeviceUpgradeLiteral()
    ensures PlainName("Device Upgrade") && LowerStr("Device Upgrade") == "device upgrade"
  {
  }

  lemma DeviceUpgradeValue()
    ensures PlainName(CategoryTable[7].1) && LowerStr(CategoryTable[7].1) == CategoryTable[7].0
  {
    DeviceUpgradeLiteral();
  }

  lemma DeviceUpgradeSkips0()
    ensures !HasFrom("device upgrade", "plan change", 0)
  {
    MissingCharNoMatch("device upgrade", "plan change", 'l');
  }

  lemma DeviceUpgradeSkips1()
    ensures !HasFrom("device upgrade", "device activation", 0)
  {
    MissingCharNoMatch("device upgrade", "device activation", 't');
  }

  lemma DeviceUpgradeSkips2()
    ensures !HasFrom("device upgrade", "billing dispute", 0)
  {
    MissingCharNoMatch("device upgrade", "billing dispute", 'b');
  }

  lemma DeviceUpgradeSkips3()
    ensures !HasFrom("device upgrade", "device purchase", 0)
  {
    MissingCharNoMatch("device upgrade", "device purchase", 'h');
  }

  lemma DeviceUpgradeSkips4()
    ensures !HasFrom("device upgrade", "account management", 0)
  {
    MissingCharNoMatch("device upgrade", "account management", 'o');
  }

  lemma DeviceUpgradeSkips5()
    ensures !HasFrom("device upgrade", "promotional offers", 0)
  {
    MissingCharNoMatch("device upgrade", "promotional offers", 'o');
  }

  lemma DeviceUpgradeSkips6()
    ensures !HasFrom("device upgrade", "data usage tracking", 0)
  {
    MissingCharNoMatch("device upgrade", "data usage tracking", 't');
  }

  lemma DeviceUpgradeFirst1()
    ensures forall j :: 0 <= j < 3 ==> !HasFrom(CategoryTable[7].0, CategoryTable[j].0, 0)
  {
    DeviceUpgradeSkips0();
    DeviceUpgradeSkips1();
    DeviceUpgradeSkips2();
  }

  lemma DeviceUpgradeFirst2()
    ensures forall j :: 3 <= j < 7 ==> !HasFrom(CategoryTable[7].0, CategoryTable[j].0, 0)
  {
    DeviceUpgradeSkips3();
    DeviceUpgradeSkips4();
    DeviceUpgradeSkips5();
    DeviceUpgradeSkips6();
  }

  lemma DeviceUpgradeFirst()
    ensures forall j :: 0 <= j < 7 ==> !HasFrom(CategoryTable[7].0, CategoryTable[j].0, 0)
  {
    DeviceUpgradeFirst1();
    DeviceUpgradeFirst2();
  }

  lemma AutoPayManagementLiteral()
    ensures PlainName("Auto-Pay Management") && LowerStr("Auto-Pay Management") == "auto-pay management"
  {
  }

  lemma AutoPayManagementValue()
    ensures PlainName(CategoryTable[8].1) && LowerStr(CategoryTable[8].1) == CategoryTable[8].0
  {
    AutoPayManagementLiteral();
  }

  lemma AutoPayManagementSkips0()
    ensures !HasFrom("auto-pay management", "plan change", 0)
  {
    MissingCharNoMatch("auto-pay management", "plan change", 'l');
  }

  lemma AutoPayManagementSkips1()
    ensures !HasFrom("auto-pay management", "device activation", 0)
  {
    MissingCharNoMatch("auto-pay management", "device activation", 'd');
  }

  lemma AutoPayManagementSkips2()
    ensures !HasFrom("auto-pay management", "billing dispute", 0)
  {
    MissingCharNoMatch("auto-pay management", "billing dispute", 'b');
  }

  lemma AutoPayManagementSkips3()
    ensures !HasFrom("auto-pay management", "device purchase", 0)
  {
    MissingCharNoMatch("auto-pay management", "device purchase", 'd');
  }

  lemma AutoPayManagementSkips4()
    ensures !HasFrom("auto-pay management", "account management", 0)
  {
    MissingCharNoMatch("auto-pay management", "account management", 'c');
  }

  lemma AutoPayManagementSkips5()
    ensures !HasFrom("auto-pay management", "promotional offers", 0)
  {
    MissingCharNoMatch("auto-pay management", "promotional offers", 'r');
  }

  lemma AutoPayManagementSkips6()
    ensures !HasFrom("auto-pay management", "data usage tracking", 0)
  {
    MissingCharNoMatch("auto-pay management", "data usage tracking", 'd');
  }

  lemma AutoPayManagementSkips7()
    ensures !HasFrom("auto-pay management", "device upgrade", 0)
  {
    MissingCharNoMatch("auto-pay management", "device upgrade", 'd');
  }

  lemma AutoPayManagementFirst1()
    ensures forall j :: 0 <= j < 4 ==> !HasFrom(CategoryTable[8].0, CategoryTable[j].0, 0)
  {
    AutoPayManagementSkips0();
    AutoPayManagementSkips1();
    AutoPayManagementSkips2();
    AutoPayManagementSkips3();
  }

  lemma AutoPayManagementFirst2()
    ensures forall j :: 4 <= j < 8 ==> !HasFrom(CategoryTable[8].0, CategoryTable[j].0, 0)
  {
    AutoPayManagementSkips4();
    AutoPayManagementSkips5();
    AutoPayManagementSkips6();
    AutoPayManagementSkips7();
  }

  lemma AutoPayManagementFirst()
    ensures forall j :: 0 <= j < 8 ==> !HasFrom(CategoryTable[8].0, CategoryTable[j].0, 0)
  {
    AutoPayManagementFirst1();
    AutoPayManagementFirst2();
  }

  lemma SimCardActivationLiteral()
    ensures PlainName("SIM Card Activation") && LowerStr("SIM Card Activation") == "sim card activation"
  {
  }

  lemma SimCardActivationValue()
    ensures PlainName(CategoryTable[10].1) && LowerStr(CategoryTable[10].1) == CategoryTable[10].0
  {
    SimCardActivationLiteral();
  }

  lemma SimCardActivationSkips0()
    ensures !HasFrom("sim card activation", "plan change", 0)
  {
    MissingCharNoMatch("sim card activation", "plan change", 'p');
  }

  lemma SimCardActivationSkips1()
    ensures !HasFrom("sim card activation", "device activation", 0)
  {
    MissingCharNoMatch("sim card activation", "device activation", 'e');
  }

  lemma SimCardActivationSkips2()
    ensures !HasFrom("sim card activation", "billing dispute", 0)
  {
    MissingCharNoMatch("sim card activation", "billing dispute", 'b');
  }

  lemma SimCardActivationSkips3()
    ensures !HasFrom("sim card activation", "device purchase", 0)
  {
    MissingCharNoMatch("sim card activation", "device purchase", 'e');
  }

  lemma SimCardActivationSkips4()
    ensures !HasFrom("sim card activation", "account management", 0)
  {
    MissingCharNoMatch("sim card activation", "account management", 'u');
  }

  lemma SimCardActivationSkips5()
    ensures !HasFrom("sim card activation", "promotional offers", 0)
  {
    MissingCharNoMatch("sim card activation", "promotional offers", 'p');
  }

  lemma SimCardActivationSkips6()
    ensures !HasFrom("sim card activation", "data usage tracking", 0)
  {
    MissingCharNoMatch("sim card activation", "data usage tracking", 'u');
  }

  lemma SimCardActivationSkips7()
    ensures !HasFrom("sim card activation", "device upgrade", 0)
  {
    MissingCharNoMatch("sim card activation", "device upgrade", 'e');
  }

  lemma SimCardActivationSkips8()
    ensures !HasFrom("sim card activation", "auto-pay management", 0)
  {
    MissingCharNoMatch("sim card activation", "auto-pay management", 'u');
  }

  lemma SimCardActivationSkips9()
    ensures !HasFrom("sim card activation", "auto pay management", 0)
  {
    MissingCharNoMatch("sim card activation", "auto pay management", 'u');
  }

  lemma SimCardActivationFirst1()
    ensures forall j :: 0 <= j < 5 ==> !HasFrom(CategoryTable[10].0, CategoryTable[j].0, 0)
  {
    SimCardActivationSkips0();
    SimCardActivationSkips1();
    SimCardActivationSkips2();
    SimCardActivationSkips3();
    SimCardActivationSkips4();
  }

  lemma SimCardActivationFirst2()
    ensures forall j :: 5 <= j < 10 ==> !HasFrom(CategoryTable[10].0, CategoryTable[j].0, 0)
  {
    SimCardActivationSkips5();
    SimCardActivationSkips6();
    SimCardActivationSkips7();
    SimCardActivationSkips8();
    SimCardActivationSkips9();
  }

  lemma SimCardActivationFirst()
    ensures forall j :: 0 <= j < 10 ==> !HasFrom(CategoryTable[10].0, CategoryTable[j].0, 0)
  {
    SimCardActivationFirst1();
    SimCardActivationFirst2();
  }

  lemma PromotionalPricingLiteral()
    ensures PlainName("Promotional Pricing") && LowerStr("Promotional Pricing") == "promotional pricing"
  {
  }

  lemma PromotionalPricingValue()
    ensures PlainName(CategoryTable[11].1) && LowerStr(CategoryTable[11].1) == CategoryTable[11].0
  {
    PromotionalPricingLiteral();
  }

  lemma PromotionalPricingSkips0()
    ensures !HasFrom("promotional pricing", "plan change", 0)
  {
    MissingCharNoMatch("promotional pricing", "plan change", 'h');
  }

  lemma PromotionalPricingSkips1()
    ensures !HasFrom("promotional pricing", "device activation", 0)
  {
    MissingCharNoMatch("promotional pricing", "device activation", 'd');
  }

  lemma PromotionalPricingSkips2()
    ensures !HasFrom("promotional pricing", "billing dispute", 0)
  {
    MissingCharNoMatch("promotional pricing", "billing dispute", 'b');
  }

  lemma PromotionalPricingSkips3()
    ensures !HasFrom("promotional pricing", "device purchase", 0)
  {
    MissingCharNoMatch("promotional pricing", "device purchase", 'd');
  }

  lemma PromotionalPricingSkips4()
    ensures !HasFrom("promotional pricing", "account management", 0)
  {
    MissingCharNoMatch("promotional pricing", "account management", 'u');
  }

  lemma PromotionalPricingSkips5()
    ensures !HasFrom("promotional pricing", "promotional offers", 0)
  {
    MissingCharNoMatch("promotional pricing", "promotional offers", 'f');
  }

  lemma PromotionalPricingSkips6()
    ensures !HasFrom("promotional pricing", "data usage tracking", 0)
  {
    MissingCharNoMatch("promotional pricing", "data usage tracking", 'd');
  }

  lemma PromotionalPricingSkips7()
    ensures !HasFrom("promotional pricing", "device upgrade", 0)
  {
    MissingCharNoMatch("promotional pricing", "device upgrade", 'd');
  }

  lemma PromotionalPricingSkips8()
    ensures !HasFrom("promotional pricing", "auto-pay management", 0)
  {
    MissingCharNoMatch("promotional pricing", "auto-pay management", 'u');
  }

  lemma PromotionalPricingSkips9()
    ensures !HasFrom("promotional pricing", "auto pay management", 0)
  {
    MissingCharNoMatch("promotional pricing", "auto pay management", 'u');
  }

  lemma PromotionalPricingSkips10()
    ensures !HasFrom("promotional pricing", "sim card activation", 0)
  {
    MissingCharNoMatch("promotional pricing", "sim card activation", 's');
  }

  lemma PromotionalPricingFirst1()
    ensures forall j :: 0 <= j < 5 ==> !HasFrom(CategoryTable[11].0, CategoryTable[j].0, 0)
  {
    PromotionalPricingSkips0();
    PromotionalPricingSkips1();
    PromotionalPricingSkips2();
    PromotionalPricingSkips3();
    PromotionalPricingSkips4();
  }

  lemma PromotionalPricingFirst2()
    ensures forall j :: 5 <= j < 11 ==> !HasFrom(CategoryTable[11].0, CategoryTable[j].0, 0)
  {
    PromotionalPricingSkips5();
    PromotionalPricingSkips6();
    PromotionalPricingSkips7();
    PromotionalPricingSkips8();
    PromotionalPricingSkips9();
    PromotionalPricingSkips10();
  }

  lemma PromotionalPricingFirst()
    ensures forall j :: 0 <= j < 11 ==> !HasFrom(CategoryTable[11].0, CategoryTable[j].0, 0)
  {
    PromotionalPricingFirst1();
    PromotionalPricingFirst2();
  }

  lemma DeviceReturnLiteral()
    ensures PlainName("Device Return") && LowerStr("Device Return") == "device return"
  {
  }

  lemma DeviceReturnValue()
    ensures PlainName(CategoryTable[12].1) && LowerStr(CategoryTable[12].1) == CategoryTable[12].0
  {
    DeviceReturnLiteral();
  }

  lemma DeviceReturnSkips0()
    ensures !HasFrom("device return", "plan change", 0)
  {
    MissingCharNoMatch("device return", "plan change", 'p');
  }

  lemma DeviceReturnSkips1()
    ensures !HasFrom("device return", "device activation", 0)
  {
    MissingCharNoMatch("device return", "device activation", 'a');
  }

  lemma DeviceReturnSkips2()
    ensures !HasFrom("device return", "billing dispute", 0)
  {
    MissingCharNoMatch("device return", "billing dispute", 'b');
  }

  lemma DeviceReturnSkips3()
    ensures !HasFrom("device return", "device purchase", 0)
  {
    MissingCharNoMatch("device return", "device purchase", 'p');
  }

  lemma DeviceReturnSkips4()
    ensures !HasFrom("device return", "account management", 0)
  {
    MissingCharNoMatch("device return", "account management", 'a');
  }

  lemma DeviceReturnSkips5()
    ensures !HasFrom("device return", "promotional offers", 0)
  {
    MissingCharNoMatch("device return", "promotional offers", 'p');
  }

  lemma DeviceReturnSkips6()
    ensures !HasFrom("device return", "data usage tracking", 0)
  {
    MissingCharNoMatch("device return", "data usage tracking", 'a');
  }

  lemma DeviceReturnSkips7()
    ensures !HasFrom("device return", "device upgrade", 0)
  {
    MissingCharNoMatch("device return", "device upgrade", 'p');
  }

  lemma DeviceReturnSkips8()
    ensures !HasFrom("device return", "auto-pay management", 0)
  {
    MissingCharNoMatch("device return", "auto-pay management", 'a');
  }

  lemma DeviceReturnSkips9()
    ensures !HasFrom("device return", "auto pay management", 0)
  {
    MissingCharNoMatch("device return", "auto pay management", 'a');
  }

  lemma DeviceReturnSkips10()
    ensures !HasFrom("device return", "sim card activation", 0)
  {
    MissingCharNoMatch("device return", "sim card activation", 's');
  }

  lemma DeviceReturnSkips11()
    ensures !HasFrom("device return", "promotional pricing", 0)
  {
    MissingCharNoMatch("device return", "promotional pricing", 'p');
  }

  lemma DeviceReturnFirst1()
    ensures forall j :: 0 <= j < 6 ==> !HasFrom(CategoryTable[12].0, CategoryTable[j].0, 0)
  {
    DeviceReturnSkips0();
    DeviceReturnSkips1();
    DeviceReturnSkips2();
    DeviceReturnSkips3();
    DeviceReturnSkips4();
    DeviceReturnSkips5();
  }

  lemma DeviceReturnFirst2()
    ensures forall j :: 6 <= j < 12 ==> !HasFrom(CategoryTable[12].0, CategoryTable[j].0, 0)
  {
    DeviceReturnSkips6();
    DeviceReturnSkips7();
    DeviceReturnSkips8();
    DeviceReturnSkips9();
    DeviceReturnSkips10();
    DeviceReturnSkips11();
  }

  lemma DeviceReturnFirst()
    ensures forall j :: 0 <= j < 12 ==> !HasFrom(CategoryTable[12].0, CategoryTable[j].0, 0)
  {
    DeviceReturnFirst1();
    DeviceReturnFirst2();
  }

  lemma DataUsageAlertsLiteral()
    ensures PlainName("Data Usage Alerts") && LowerStr("Data Usage Alerts") == "data usage alerts"
  {
  }

  lemma DataUsageAlertsValue()
    ensures PlainName(CategoryTable[13].1) && LowerStr(CategoryTable[13].1) == CategoryTable[13].0
  {
    DataUsageAlertsLiteral();
  }

  lemma DataUsageAlertsSkips0()
    ensures !HasFrom("data usage alerts", "plan change", 0)
  {
    MissingCharNoMatch("data usage alerts", "plan change", 'p');
  }

  lemma DataUsageAlertsSkips1()
    ensures !HasFrom("data usage alerts", "device activation", 0)
  {
    MissingCharNoMatch("data usage alerts", "device activation", 'v');
  }

  lemma DataUsageAlertsSkips2()
    ensures !HasFrom("data usage alerts", "billing dispute", 0)
  {
    MissingCharNoMatch("data usage alerts", "billing dispute", 'b');
  }

  lemma DataUsageAlertsSkips3()
    ensures !HasFrom("data usage alerts", "device purchase", 0)
  {
    MissingCharNoMatch("data usage alerts", "device purchase", 'v');
  }

  lemma DataUsageAlertsSkips4()
    ensures !HasFrom("data usage alerts", "account management", 0)
  {
    MissingCharNoMatch("data usage alerts", "account management", 'c');
  }

  lemma DataUsageAlertsSkips5()
    ensures !HasFrom("data usage alerts", "promotional offers", 0)
  {
    MissingCharNoMatch("data usage alerts", "promotional offers", 'p');
  }

  lemma DataUsageAlertsSkips6()
    ensures !HasFrom("data usage alerts", "data usage tracking", 0)
  {
    MissingCharNoMatch("data usage alerts", "data usage tracking", 'c');
  }

  lemma DataUsageAlertsSkips7()
    ensures !HasFrom("data usage alerts", "device upgrade", 0)
  {
    MissingCharNoMatch("data usage alerts", "device upgrade", 'v');
  }

  lemma DataUsageAlertsSkips8()
    ensures !HasFrom("data usage alerts", "auto-pay management", 0)
  {
    MissingCharNoMatch("data usage alerts", "auto-pay management", 'o');
  }

  lemma DataUsageAlertsSkips9()
    ensures !HasFrom("data usage alerts", "auto pay management", 0)
  {
    MissingCharNoMatch("data usage alerts", "auto pay management", 'o');
  }

  lemma DataUsageAlertsSkips10()
    ensures !HasFrom("data usage alerts", "sim card activation", 0)
  {
    MissingCharNoMatch("data usage alerts", "sim card activation", 'i');
  }

  lemma DataUsageAlertsSkips11()
    ensures !HasFrom("data usage alerts", "promotional pricing", 0)
  {
    MissingCharNoMatch("data usage alerts", "promotional pricing", 'p');
  }

  lemma DataUsageAlertsSkips12()
    ensures !HasFrom("data usage alerts", "device return", 0)
  {
    MissingCharNoMatch("data usage alerts", "device return", 'v');
  }

  lemma DataUsageAlertsFirst1()
    ensures forall j :: 0 <= j < 6 ==> !HasFrom(CategoryTable[13].0, CategoryTable[j].0, 0)
  {
    DataUsageAlertsSkips0();
    DataUsageAlertsSkips1();
    DataUsageAlertsSkips2();
    DataUsageAlertsSkips3();
    DataUsageAlertsSkips4();
    DataUsageAlertsSkips5();
  }

  lemma DataUsageAlertsFirst2()
    ensures forall j :: 6 <= j < 13 ==> !HasFrom(CategoryTable[13].0, CategoryTable[j].0, 0)
  {
    DataUsageAlertsSkips6();
    DataUsageAlertsSkips7();
    DataUsageAlertsSkips8();
    DataUsageAlertsSkips9();
    DataUsageAlertsSkips10();
    DataUsageAlertsSkips11();
    DataUsageAlertsSkips12();
  }

  lemma DataUsageAlertsFirst()
    ensures forall j :: 0 <= j < 13 ==> !HasFrom(CategoryTable[13].0, CategoryTable[j].0, 0)
  {
    DataUsageAlertsFirst1();
    DataUsageAlertsFirst2();
  }

  lemma ServiceCommandsLiteral()
    ensures PlainName("Service Commands") && LowerStr("Service Commands") == "service commands"
  {
  }

  lemma ServiceCommandsValue()
    ensures PlainName(CategoryTable[14].1) && LowerStr(CategoryTable[14].1) == CategoryTable[14].0
  {
    ServiceCommandsLiteral();
  }

  lemma ServiceCommandsSkips0()
    ensures !HasFrom("service commands", "plan change", 0)
  {
    MissingCharNoMatch("service commands", "plan change", 'p');
  }

  lemma ServiceCommandsSkips1()
    ensures !HasFrom("service commands", "device activation", 0)
  {
    MissingCharNoMatch("service commands", "device activation", 't');
  }

  lemma ServiceCommandsSkips2()
    ensures !HasFrom("service commands", "billing dispute", 0)
  {
    MissingCharNoMatch("service commands", "billing dispute", 'b');
  }

  lemma ServiceCommandsSkips3()
    ensures !HasFrom("service commands", "device purchase", 0)
  {
    MissingCharNoMatch("service commands", "device purchase", 'p');
  }

  lemma ServiceCommandsSkips4()
    ensures !HasFrom("service commands", "account management", 0)
  {
    MissingCharNoMatch("service commands", "account management", 'u');
  }

  lemma ServiceCommandsSkips5()
    ensures !HasFrom("service commands", "promotional offers", 0)
  {
    MissingCharNoMatch("service commands", "promotional offers", 'p');
  }

  lemma ServiceCommandsSkips6()
    ensures !HasFrom("service commands", "data usage tracking", 0)
  {
    MissingCharNoMatch("service commands", "data usage tracking", 't');
  }

  lemma ServiceCommandsSkips7()
    ensures !HasFrom("service commands", "device upgrade", 0)
  {
    MissingCharNoMatch("service commands", "device upgrade", 'u');
  }

  lemma ServiceCommandsSkips8()
    ensures !HasFrom("service commands", "auto-pay management", 0)
  {
    MissingCharNoMatch("service commands", "auto-pay management", 'u');
  }

  lemma ServiceCommandsSkips9()
    ensures !HasFrom("service commands", "auto pay management", 0)
  {
    MissingCharNoMatch("service commands", "auto pay management", 'u');
  }

  lemma ServiceCommandsSkips10()
    ensures !HasFrom("service commands", "sim card activation", 0)
  {
    MissingCharNoMatch("service commands", "sim card activation", 't');
  }

  lemma ServiceCommandsSkips11()
    ensures !HasFrom("service commands", "promotional pricing", 0)
  {
    MissingCharNoMatch("service commands", "promotional pricing", 'p');
  }

  lemma ServiceCommandsSkips12()
    ensures !HasFrom("service commands", "device return", 0)
  {
    MissingCharNoMatch("service commands", "device return", 't');
  }

  lemma ServiceCommandsSkips13()
    ensures !HasFrom("service commands", "data usage alerts", 0)
  {
    MissingCharNoMatch("service commands", "data usage alerts", 't');
  }

  lemma ServiceCommandsFirst1()
    ensures forall j :: 0 <= j < 7 ==> !HasFrom(CategoryTable[14].0, CategoryTable[j].0, 0)
  {
    ServiceCommandsSkips0();
    ServiceCommandsSkips1();
    ServiceCommandsSkips2();
    ServiceCommandsSkips3();
    ServiceCommandsSkips4();
    ServiceCommandsSkips5();
    ServiceCommandsSkips6();
  }

  lemma ServiceCommandsFirst2()
    ensures forall j :: 7 <= j < 14 ==> !HasFrom(CategoryTable[14].0, CategoryTable[j].0, 0)
  {
    ServiceCommandsSkips7();
    ServiceCommandsSkips8();
    ServiceCommandsSkips9();
    ServiceCommandsSkips10();
    ServiceCommandsSkips11();
    ServiceCommandsSkips12();
    ServiceCommandsSkips13();
  }

  lemma ServiceCommandsFirst()
    ensures forall j :: 0 <= j < 14 ==> !HasFrom(CategoryTable[14].0, CategoryTable[j].0, 0)
  {
    ServiceCommandsFirst1();
    ServiceCommandsFirst2();
  }

  lemma BalanceInquiryLiteral()
    ensures PlainName("Balance Inquiry") && LowerStr("Balance Inquiry") == "balance inquiry"
  {
  }

  lemma BalanceInquiryValue()
    ensures PlainName(CategoryTable[15].1) && LowerStr(CategoryTable[15].1) == CategoryTable[15].0
  {
    BalanceInquiryLiteral();
  }

  lemma BalanceInquirySkips0()
    ensures !HasFrom("balance inquiry", "plan change", 0)
  {
    MissingCharNoMatch("balance inquiry", "plan change", 'p');
  }

  lemma BalanceInquirySkips1()
    ensures !HasFrom("balance inquiry", "device activation", 0)
  {
    MissingCharNoMatch("balance inquiry", "device activation", 'd');
  }

  lemma BalanceInquirySkips2()
    ensures !HasFrom("balance inquiry", "billing dispute", 0)
  {
    MissingCharNoMatch("balance inquiry", "billing dispute", 'g');
  }

  lemma BalanceInquirySkips3()
    ensures !HasFrom("balance inquiry", "device purchase", 0)
  {
    MissingCharNoMatch("balance inquiry", "device purchase", 'd');
  }

  lemma BalanceInquirySkips4()
    ensures !HasFrom("balance inquiry", "account management", 0)
  {
    MissingCharNoMatch("balance inquiry", "account management", 'o');
  }

  lemma BalanceInquirySkips5()
    ensures !HasFrom("balance inquiry", "promotional offers", 0)
  {
    MissingCharNoMatch("balance inquiry", "promotional offers", 'p');
  }

  lemma BalanceInquirySkips6()
    ensures !HasFrom("balance inquiry", "data usage tracking", 0)
  {
    MissingCharNoMatch("balance inquiry", "data usage tracking", 'd');
  }

  lemma BalanceInquirySkips7()
    ensures !HasFrom("balance inquiry", "device upgrade", 0)
  {
    MissingCharNoMatch("balance inquiry", "device upgrade", 'd');
  }

  lemma BalanceInquirySkips8()
    ensures !HasFrom("balance inquiry", "auto-pay management", 0)
  {
    MissingCharNoMatch("balance inquiry", "auto-pay management", 't');
  }

  lemma BalanceInquirySkips9()
    ensures !HasFrom("balance inquiry", "auto pay management", 0)
  {
    MissingCharNoMatch("balance inquiry", "auto pay management", 't');
  }

  lemma BalanceInquirySkips10()
    ensures !HasFrom("balance inquiry", "sim card activation", 0)
  {
    MissingCharNoMatch("balance inquiry", "sim card activation", 's');
  }

  lemma BalanceInquirySkips11()
    ensures !HasFrom("balance inquiry", "promotional pricing", 0)
  {
    MissingCharNoMatch("balance inquiry", "promotional pricing", 'p');
  }

  lemma BalanceInquirySkips12()
    ensures !HasFrom("balance inquiry", "device return", 0)
  {
    MissingCharNoMatch("balance inquiry", "device return", 'd');
  }

  lemma BalanceInquirySkips13()
    ensures !HasFrom("balance inquiry", "data usage alerts", 0)
  {
    MissingCharNoMatch("balance inquiry", "data usage alerts", 'd');
  }

  lemma BalanceInquirySkips14()
    ensures !HasFrom("balance inquiry", "service commands", 0)
  {
    MissingCharNoMatch("balance inquiry", "service commands", 's');
  }

  lemma BalanceInquiryFirst1()
    ensures forall j :: 0 <= j < 7 ==> !HasFrom(CategoryTable[15].0, CategoryTable[j].0, 0)
  {
    BalanceInquirySkips0();
    BalanceInquirySkips1();
    BalanceInquirySkips2();
    BalanceInquirySkips3();
    BalanceInquirySkips4();
    BalanceInquirySkips5();
    BalanceInquirySkips6();
  }

  lemma BalanceInquiryFirst2()
    ensures forall j :: 7 <= j < 15 ==> !HasFrom(CategoryTable[15].0, CategoryTable[j].0, 0)
  {
    BalanceInquirySkips7();
    BalanceInquirySkips8();
    BalanceInquirySkips9();
    BalanceInquirySkips10();
    BalanceInquirySkips11();
    BalanceInquirySkips12();
    BalanceInquirySkips13();
    BalanceInquirySkips14();
  }

  lemma BalanceInquiryFirst()
    ensures forall j :: 0 <= j < 15 ==> !HasFrom(CategoryTable[15].0, CategoryTable[j].0, 0)
  {
    BalanceInquiryFirst1();
    BalanceInquiryFirst2();
  }

  /** Canonical value `k` is a plain name whose lower-case form is the key of an entry `m` that maps to it. */
  lemma CategoryValue(k: nat) returns (m: nat)
    requires k < |CategoryTable|
    ensures m < |CategoryTable| && m != 9 && PlainName(CategoryTable[k].1)
    ensures LowerStr(CategoryTable[k].1) == CategoryTable[m].0 && CategoryTable[m].1 == CategoryTable[k].1
  {
    if k < 8 {
      m := CategoryValueLow(k);
    } else {
      m := CategoryValueHigh(k);
    }
  }

  /** CategoryValue for the first eight entries. */
  lemma CategoryValueLow(k: nat) returns (m: nat)
    requires 0 <= k < 8
    ensures m < |CategoryTable| && m != 9 && PlainName(CategoryTable[k].1)
    ensures LowerStr(CategoryTable[k].1) == CategoryTable[m].0 && CategoryTable[m].1 == CategoryTable[k].1
  {
    m := k;
    if k == 0 {
      PlanChangeValue();
    } else if k == 1 {
      DeviceActivationValue();
    } else if k == 2 {
      BillingDisputeValue();
    } else if k == 3 {
      DevicePurchaseValue();
    } else if k == 4 {
      AccountManagementValue();
    } else if k == 5 {
      PromotionalOffersValue();
    } else if k == 6 {
      DataUsageTrackingValue();
    } else {
      DeviceUpgradeValue();
    }
  }

  /** CategoryValue for the last eight entries. */
  lemma CategoryValueHigh(k: nat) returns (m: nat)
    requires 8 <= k < 16
    ensures m < |CategoryTable| && m != 9 && PlainName(CategoryTable[k].1)
    ensures LowerStr(CategoryTable[k].1) == CategoryTable[m].0 && CategoryTable[m].1 == CategoryTable[k].1
  {
    m := k;
    if k == 8 {
      AutoPayManagementValue();
    } else if k == 9 {
      m := 8;
      AutoPayManagementValue();
    } else if k == 10 {
      SimCardActivationValue();
    } else if k == 11 {
      PromotionalPricingValue();
    } else if k == 12 {
      DeviceReturnValue();
    } else if k == 13 {
      DataUsageAlertsValue();
    } else if k == 14 {
      ServiceCommandsValue();
    } else {
      BalanceInquiryValue();
    }
  }

  /** No key before entry `m` occurs in key `m`, for every entry but the second spelling of auto-pay. */
  lemma CategoryFirst(m: nat)
    requires m < |CategoryTable| && m != 9
    ensures forall j :: 0 <= j < m ==> !HasFrom(CategoryTable[m].0, CategoryTable[j].0, 0)
  {
    if m == 1 {
      DeviceActivationFirst();
    } else if m == 2 {
      BillingDisputeFirst();
    } else if m == 3 {
      DevicePurchaseFirst();
    } else if m == 4 {
      AccountManagementFirst();
    } else if m == 5 {
      PromotionalOffersFirst();
    } else if m == 6 {
      DataUsageTrackingFirst();
    } else if m == 7 {
      DeviceUpgradeFirst();
    } else if m == 8 {
      AutoPayManagementFirst();
    } else if m == 10 {
      SimCardActivationFirst();
    } else if m == 11 {
      PromotionalPricingFirst();
    } else if m == 12 {
      DeviceReturnFirst();
    } else if m == 13 {
      DataUsageAlertsFirst();
    } else if m == 14 {
      ServiceCommandsFirst();
    } else if m == 15 {
      BalanceInquiryFirst();
    }
  }
}
